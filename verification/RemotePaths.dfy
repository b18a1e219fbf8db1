/** Remote paths as strings, and the sequence of names a server reads in one. */
module RemotePaths {
  type Path = seq<string>

  predicate IsName(name: string) { name != "" && '/' !in name }

  predicate AllNames(segs: Path) { forall i :: 0 <= i < |segs| ==> IsName(segs[i]) }

  /** Length of the leading stretch without a slash. */
  function Run(p: string): (n: nat)
    ensures n <= |p| && '/' !in p[..n] && (n < |p| ==> p[n] == '/')
  {
    if p == "" || p[0] == '/' then 0
    else
      var n := Run(p[1..]);
      assert p[..n + 1] == [p[0]] + p[1..][..n];
      n + 1
  }

  /** The names of a path: what `split('/')` leaves once empty parts are dropped. */
  function Segments(p: string): (segs: Path)
    ensures AllNames(segs)
    decreases |p|
  {
    if p == "" then []
    else if p[0] == '/' then Segments(p[1..])
    else [p[..Run(p)]] + Segments(p[Run(p)..])
  }

  lemma {:induction false} RunIs(p: string, n: nat)
    requires n <= |p| && '/' !in p[..n] && (n < |p| ==> p[n] == '/')
    ensures Run(p) == n
  {
    if n > 0 {
      assert p[..n] == [p[0]] + p[1..][..n - 1];
      RunIs(p[1..], n - 1);
    }
  }

  lemma FirstSegment(p: string, n: nat)
    requires 0 < n <= |p| && '/' !in p[..n] && (n < |p| ==> p[n] == '/')
    ensures Segments(p) == [p[..n]] + Segments(p[n..])
  {
    assert p[0] == p[..n][0];
    RunIs(p, n);
  }

  lemma NameConcat(a: string, b: string, n: nat)
    requires 0 < n <= |a| && '/' !in a[..n] && (n < |a| ==> a[n] == '/')
    requires Segments(a[n..] + "/" + b) == Segments(a[n..]) + Segments(b)
    ensures Segments(a + "/" + b) == Segments(a) + Segments(b)
  {
    var s := a + "/" + b;
    SplitAt(a, b, n);
    FirstSegment(a, n);
    FirstSegment(s, n);
    ConsAppend(a[..n], Segments(a[n..]), Segments(b));
  }

  lemma ConsAppend(name: string, u: Path, v: Path)
    ensures [name] + (u + v) == ([name] + u) + v
  {
  }

  lemma SplitAt(a: string, b: string, n: nat)
    requires n <= |a|
    ensures var s := a + "/" + b;
            s[..n] == a[..n] && s[n..] == a[n..] + "/" + b && s[n] == if n < |a| then a[n] else '/'
  {
  }

  /** A slash separates: the names before it, then the names after it. */
  lemma {:induction false} SegmentsConcat(a: string, b: string)
    ensures Segments(a + "/" + b) == Segments(a) + Segments(b)
    decreases |a|
  {
    var s := a + "/" + b;
    if a == "" {
      assert s[1..] == b;
    } else if a[0] == '/' {
      assert s[1..] == a[1..] + "/" + b;
      SegmentsConcat(a[1..], b);
    } else {
      var n := Run(a);
      SegmentsConcat(a[n..], b);
      assert n > 0;
      NameConcat(a, b, n);
    }
  }

  lemma SegmentsAfterSlash(a: string, b: string)
    requires a != "" && a[|a| - 1] == '/'
    ensures Segments(a + b) == Segments(a) + Segments(b)
  {
    var d := a[..|a| - 1];
    assert a == d + "/" && a + b == d + "/" + b && a == d + "/" + "";
    SegmentsConcat(d, b);
    SegmentsConcat(d, "");
  }

  lemma SegmentsOfName(name: string)
    requires IsName(name)
    ensures Segments(name) == [name]
  {
    assert name[..|name|] == name && name[|name|..] == "";
    RunIs(name, |name|);
  }

  /** Relative paths, as the browser builds them. */
  function Join(segs: Path): string {
    if segs == [] then ""
    else if |segs| == 1 then segs[0]
    else Join(segs[..|segs| - 1]) + "/" + segs[|segs| - 1]
  }

  lemma {:induction false} SegmentsOfJoin(segs: Path)
    requires AllNames(segs)
    ensures Segments(Join(segs)) == segs
    ensures segs != [] ==> Join(segs) != "" && Join(segs)[0] != '/'
  {
    if |segs| == 1 {
      SegmentsOfName(segs[0]);
    } else if |segs| > 1 {
      var n := |segs| - 1;
      SegmentsOfJoin(segs[..n]);
      SegmentsConcat(Join(segs[..n]), segs[n]);
      SegmentsOfName(segs[n]);
      assert segs == segs[..n] + [segs[n]];
    }
  }

  /** Absolute canonical paths: a slash before every name, and just a slash for the root. */
  function Render(segs: Path): string {
    if segs == [] then "/" else RenderNames(segs)
  }

  function RenderNames(segs: Path): string {
    if segs == [] then "" else RenderNames(segs[..|segs| - 1]) + "/" + segs[|segs| - 1]
  }

  lemma {:induction false} SegmentsOfRender(segs: Path)
    requires AllNames(segs)
    ensures Segments(RenderNames(segs)) == segs && Segments(Render(segs)) == segs
  {
    assert Segments("/") == Segments("/"[1..]);
    if segs != [] {
      var n := |segs| - 1;
      SegmentsOfRender(segs[..n]);
      SegmentsConcat(RenderNames(segs[..n]), segs[n]);
      SegmentsOfName(segs[n]);
      assert segs == segs[..n] + [segs[n]];
    }
  }

  /** A canonical path is the rendering of its names. */
  predicate Canonical(p: string) { Render(Segments(p)) == p }

  // ----- joinRemotePath -----

  function Slashed(s: string): string {
    seq(|s|, i requires 0 <= i < |s| => if s[i] == '\\' then '/' else s[i])
  }

  function TrimLeading(s: string): string
    decreases |s|
  {
    if s != "" && s[0] == '/' then TrimLeading(s[1..]) else s
  }

  function JoinRemotePath(base: string, relative: string): string {
    var normalized := TrimLeading(Slashed(relative));
    if normalized == "" then base
    else if base != "" && base[|base| - 1] == '/' then base + normalized
    else base + "/" + normalized
  }

  lemma {:induction false} TrimKeepsSegments(s: string)
    ensures Segments(TrimLeading(s)) == Segments(s)
    decreases |s|
  {
    if s != "" && s[0] == '/' {
      TrimKeepsSegments(s[1..]);
    }
  }

  /** Joining concatenates the names, after backslashes have become separators. */
  lemma JoinRemoteSegments(base: string, relative: string)
    ensures Segments(JoinRemotePath(base, relative)) == Segments(base) + Segments(Slashed(relative))
  {
    var normalized := TrimLeading(Slashed(relative));
    TrimKeepsSegments(Slashed(relative));
    if base != "" && base[|base| - 1] == '/' {
      SegmentsAfterSlash(base, normalized);
    } else {
      SegmentsConcat(base, normalized);
    }
  }

  lemma Regrouped(a: string, b: string)
    ensures "/" + a + "/" + b == "/" + (a + "/" + b)
  {
  }

  lemma {:induction false} NamesJoined(segs: Path)
    requires segs != []
    ensures RenderNames(segs) == "/" + Join(segs)
  {
    var n := |segs| - 1;
    if n > 0 {
      NamesJoined(segs[..n]);
      Regrouped(Join(segs[..n]), segs[n]);
    } else {
      assert segs[..0] == [];
    }
  }

  lemma {:induction false} NamesAppend(a: Path, b: Path)
    ensures RenderNames(a + b) == RenderNames(a) + RenderNames(b)
    decreases |b|
  {
    if b == [] {
      assert a + b == a;
    } else {
      assert (a + b)[..|a + b| - 1] == a + b[..|b| - 1];
      NamesAppend(a, b[..|b| - 1]);
    }
  }

  lemma JoinClean(base: string, rel: string)
    requires '\\' !in rel && rel != "" && rel[0] != '/'
    ensures JoinRemotePath(base, rel) ==
            if base != "" && base[|base| - 1] == '/' then base + rel else base + "/" + rel
  {
    assert Slashed(rel) == rel && TrimLeading(rel) == rel;
  }

  /** Under a canonical base, the root included, the joined path is canonical too. */
  lemma JoinIsCanonical(base: Path, segs: Path)
    requires AllNames(base) && AllNames(segs) && NoBackslash(segs)
    ensures JoinRemotePath(Render(base), Join(segs)) == Render(base + segs)
  {
    if segs == [] {
      assert base + segs == base && JoinRemotePath(Render(base), "") == Render(base);
    } else {
      JoinHasBackslash(segs);
      SegmentsOfJoin(segs);
      JoinClean(Render(base), Join(segs));
      RenderEnds(base);
      NamesBelow(base, segs);
    }
  }

  lemma NamesBelow(base: Path, segs: Path)
    requires segs != []
    ensures Render(base + segs) == RenderNames(base) + "/" + Join(segs)
  {
    NamesJoined(segs);
    NamesAppend(base, segs);
    assert RenderNames(base) + ("/" + Join(segs)) == RenderNames(base) + "/" + Join(segs);
  }

  lemma RenderEnds(base: Path)
    requires AllNames(base)
    ensures var p := Render(base); p != "" && (p[|p| - 1] == '/' <==> base == [])
  {
    if base != [] {
      var last := base[|base| - 1];
      assert IsName(last) && last[|last| - 1] in last;
      assert RenderNames(base)[|RenderNames(base)| - 1] == last[|last| - 1];
    }
  }

  predicate NoBackslash(segs: Path) { forall i :: 0 <= i < |segs| ==> '\\' !in segs[i] }

  lemma {:induction false} JoinHasBackslash(segs: Path)
    ensures '\\' in Join(segs) <==> !NoBackslash(segs)
  {
    if |segs| > 1 {
      var n := |segs| - 1;
      JoinHasBackslash(segs[..n]);
      assert segs == segs[..n] + [segs[n]];
      assert NoBackslash(segs) <==> NoBackslash(segs[..n]) && '\\' !in segs[n];
    }
  }

  lemma {:induction false} SegmentsChars(p: string, c: char)
    requires c !in p
    ensures forall i :: 0 <= i < |Segments(p)| ==> c !in Segments(p)[i]
    decreases |p|
  {
    if p != "" {
      if p[0] == '/' {
        SegmentsChars(p[1..], c);
      } else {
        SegmentsChars(p[Run(p)..], c);
      }
    }
  }

  /** A relative path lands under the base with its own names exactly when no name holds a
      backslash. */
  lemma JoinLandsUnderBase(base: string, segs: Path)
    requires AllNames(segs)
    ensures Segments(JoinRemotePath(base, Join(segs))) == Segments(base) + segs <==> NoBackslash(segs)
  {
    var rel := Join(segs);
    JoinRemoteSegments(base, rel);
    JoinHasBackslash(segs);
    SegmentsOfJoin(segs);
    if NoBackslash(segs) {
      assert Slashed(rel) == rel;
    } else {
      assert '\\' !in Slashed(rel);
      SegmentsChars(Slashed(rel), '\\');
      var got := Segments(Slashed(rel));
      assert got != segs;
      assert (Segments(base) + got)[|Segments(base)|..] == got;
      assert (Segments(base) + segs)[|Segments(base)|..] == segs;
    }
  }

  // ----- the directory part of a path -----

  function LastSegment(p: string): string {
    if p == "" then "" else if p[|p| - 1] == '/' then ""
    else LastSegment(p[..|p| - 1]) + [p[|p| - 1]]
  }

  /** What `EnsureRemoteDir` cuts off: everything after the last slash. */
  lemma {:induction false} LastSegmentIs(p: string)
    ensures |LastSegment(p)| <= |p| && p == p[..|p| - |LastSegment(p)|] + LastSegment(p)
    ensures '/' !in LastSegment(p)
    ensures var dir := p[..|p| - |LastSegment(p)|]; dir == "" || dir[|dir| - 1] == '/'
  {
    if p != "" && p[|p| - 1] != '/' {
      LastSegmentIs(p[..|p| - 1]);
    }
  }

  function DirPart(p: string): string {
    LastSegmentIs(p);
    p[..|p| - |LastSegment(p)|]
  }

  lemma DirPartSegments(p: string)
    ensures Segments(p) == Segments(DirPart(p)) + if LastSegment(p) == "" then [] else [LastSegment(p)]
  {
    LastSegmentIs(p);
    DirThenLast(DirPart(p), LastSegment(p));
    assert p == DirPart(p) + LastSegment(p);
  }

  lemma DirThenLast(dir: string, last: string)
    requires '/' !in last && (dir == "" || dir[|dir| - 1] == '/')
    ensures Segments(dir + last) == Segments(dir) + if last == "" then [] else [last]
  {
    if last == "" {
      assert dir + last == dir;
    } else {
      SegmentsOfName(last);
      if dir == "" {
        assert dir + last == last;
      } else {
        SegmentsAfterSlash(dir, last);
      }
    }
  }
}
