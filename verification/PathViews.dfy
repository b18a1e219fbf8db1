/** The ways the file manager looks at the current remote path: normalised when it navigates, as
    breadcrumbs, and as the parent the file tree offers. */
module PathViews {
  import opened Wrappers
  import opened RemotePaths

  // ----- canonical paths, seen from the front -----

  lemma {:induction false} RenderFront(name: string, rest: Path)
    ensures RenderNames([name] + rest) == "/" + name + RenderNames(rest)
  {
    var all := [name] + rest;
    if rest == [] {
      assert all[..0] == [] && RenderNames(all[..0]) == "";
    } else {
      var n := |rest| - 1;
      assert all[..|all| - 1] == [name] + rest[..n];
      RenderFront(name, rest[..n]);
    }
  }

  predicate NoEmptyPart(p: string) { forall i :: 0 <= i < |p| - 1 ==> !(p[i] == '/' && p[i + 1] == '/') }

  predicate Tidy(p: string) { p != "" ==> p[0] == '/' && p[|p| - 1] != '/' && NoEmptyPart(p) }

  lemma TidyRest(p: string, k: nat)
    requires Tidy(p) && k <= |p| && (k < |p| ==> p[k] == '/')
    ensures Tidy(p[k..])
  {
    var rest := p[k..];
    forall i | 0 <= i < |rest| - 1
      ensures !(rest[i] == '/' && rest[i + 1] == '/')
    {
      var j := k + i;
      assert rest[i] == p[j] && rest[i + 1] == p[j + 1];
    }
  }

  /** A tidy path is the rendering of its names. */
  lemma {:induction false} TidyRenders(p: string)
    requires Tidy(p)
    ensures RenderNames(Segments(p)) == p
    decreases |p|
  {
    if p != "" {
      assert p[1] != '/' by {
        var i := 0;
        assert !(p[i] == '/' && p[i + 1] == '/');
      }
      var q := p[1..];
      var n := Run(q);
      var name, rest := q[..n], q[n..];
      assert Segments(p) == [name] + Segments(rest);
      assert rest == p[n + 1..];
      TidyRest(p, n + 1);
      TidyRenders(rest);
      RenderFront(name, Segments(rest));
      assert p == "/" + name + rest;
    }
  }

  lemma {:induction false} RenderedIsTidy(segs: Path)
    requires AllNames(segs)
    ensures Tidy(RenderNames(segs)) && (segs != [] ==> |RenderNames(segs)| >= 2)
  {
    if segs != [] {
      var n := |segs| - 1;
      var before, name := RenderNames(segs[..n]), segs[n];
      RenderedIsTidy(segs[..n]);
      assert IsName(name);
      var p := before + "/" + name;
      forall i | 0 <= i < |p| - 1
        ensures !(p[i] == '/' && p[i + 1] == '/')
      {
        if i + 1 > |before| {
          assert p[i + 1] == name[i - |before|];
        } else if i + 1 == |before| {
          assert p[i] == before[|before| - 1];
        } else {
          assert p[i] == before[i] && p[i + 1] == before[i + 1];
        }
      }
      assert p[|p| - 1] == name[|name| - 1];
    }
  }

  /** What canonical means, character by character: a leading slash, no empty part, and no
      trailing slash except for the root. */
  lemma CanonicalExactly(p: string)
    ensures Canonical(p) <==> p == "/" || (p != "" && Tidy(p))
  {
    assert Segments("/") == Segments("/"[1..]);
    RenderedIsTidy(Segments(p));
    if p != "/" && p != "" && Tidy(p) {
      TidyRenders(p);
    }
  }

  lemma {:induction false} RenderNoLonger(p: string)
    ensures |RenderNames(Segments(p))| <= |p| + if p != "" && p[0] == '/' then 0 else 1
    ensures p == "" ==> RenderNames(Segments(p)) == ""
    decreases |p|
  {
    if p != "" {
      if p[0] == '/' {
        RenderNoLonger(p[1..]);
      } else {
        var n := Run(p);
        RenderNoLonger(p[n..]);
        RenderFront(p[..n], Segments(p[n..]));
        assert n < |p| ==> p[n..][0] == '/';
      }
    }
  }

  // ----- normalizeRemotePath -----

  /** The characters that JavaScript's `trim` removes. */
  predicate IsSpace(c: char) {
    var n := c as int;
    || 9 <= n <= 13 || n == 0x20 || n == 0xA0 || n == 0x1680 || 0x2000 <= n <= 0x200A
    || n == 0x2028 || n == 0x2029 || n == 0x202F || n == 0x205F || n == 0x3000 || n == 0xFEFF
  }

  function TrimStart(s: string): string {
    if s != "" && IsSpace(s[0]) then TrimStart(s[1..]) else s
  }

  function TrimEnd(s: string): (r: string)
    ensures r <= s && (r != "" ==> !IsSpace(r[|r| - 1]))
    ensures r == s <==> s == "" || !IsSpace(s[|s| - 1])
  {
    if s != "" && IsSpace(s[|s| - 1]) then TrimEnd(s[..|s| - 1]) else s
  }

  function Trim(s: string): string { TrimEnd(TrimStart(s)) }

  function NormalizeRemotePath(path: string): string {
    var trimmed := Trim(path);
    if trimmed == "" || trimmed == "/" then "/"
    else "/" + Join(Segments(TrimLeading(trimmed)))
  }

  lemma {:induction false} SlashJoinRenders(segs: Path)
    ensures segs != [] ==> "/" + Join(segs) == RenderNames(segs)
  {
    if |segs| == 1 {
      assert segs[..0] == [] && RenderNames(segs[..0]) == "";
    } else if |segs| > 1 {
      var n := |segs| - 1;
      SlashJoinRenders(segs[..n]);
      assert "/" + (Join(segs[..n]) + "/" + segs[n]) == ("/" + Join(segs[..n])) + "/" + segs[n];
    }
  }

  /** Normalising renders the names of the trimmed path, so it always gives a canonical path. */
  lemma NormalizeRenders(path: string)
    ensures NormalizeRemotePath(path) == Render(Segments(Trim(path)))
    ensures Canonical(NormalizeRemotePath(path))
  {
    var trimmed := Trim(path);
    assert Segments("/") == Segments("/"[1..]);
    TrimKeepsSegments(trimmed);
    SlashJoinRenders(Segments(trimmed));
    SegmentsOfRender(Segments(trimmed));
  }

  /** A canonical path is left alone exactly when its last name does not end in white space. */
  lemma NormalizeCanonical(p: string)
    requires Canonical(p)
    ensures NormalizeRemotePath(p) == p <==> !IsSpace(p[|p| - 1])
  {
    CanonicalExactly(p);
    assert !IsSpace('/') && p[0] == '/' && TrimStart(p) == p;
    NormalizeRenders(p);
    var t := Trim(p);
    if IsSpace(p[|p| - 1]) {
      assert t < p;
      if t == "" {
        assert TrimEnd(p) == "";
        TrimEndKeepsSlash(p);
      } else {
        RenderNoLonger(t);
        assert |Render(Segments(t))| < |p|;
      }
    }
  }

  lemma {:induction false} TrimEndKeepsSlash(p: string)
    requires p != "" && p[0] == '/'
    ensures TrimEnd(p) != ""
  {
    if IsSpace(p[|p| - 1]) && |p| > 1 {
      TrimEndKeepsSlash(p[..|p| - 1]);
    }
  }

  // ----- breadcrumbs -----

  datatype Crumb = Crumb(caption: string, path: string)

  function TrimTrailing(s: string): string {
    if s != "" && s[|s| - 1] == '/' then TrimTrailing(s[..|s| - 1]) else s
  }

  lemma {:induction false} TrailingKeepsSegments(s: string)
    ensures Segments(TrimTrailing(s)) == Segments(s)
  {
    if s != "" && s[|s| - 1] == '/' {
      var d := s[..|s| - 1];
      TrailingKeepsSegments(d);
      assert s == d + "/" + "";
      SegmentsConcat(d, "");
    }
  }

  function CollapseLeading(s: string): string {
    if s != "" && s[0] == '/' then "/" + TrimLeading(s) else s
  }

  lemma CollapseKeepsSegments(s: string)
    ensures Segments(CollapseLeading(s)) == Segments(s)
  {
    TrimKeepsSegments(s);
    if s != "" && s[0] == '/' {
      assert ("/" + TrimLeading(s))[1..] == TrimLeading(s);
    }
  }

  /** The root, then one crumb per name leading to its directory. */
  function Crumbs(segs: Path): seq<Crumb> {
    [Crumb("", "/")] + seq(|segs|, i requires 0 <= i < |segs| => Crumb(segs[i], RenderNames(segs[..i + 1])))
  }

  method PathToBreadcrumbs(path: string) returns (crumbs: seq<Crumb>)
    ensures crumbs == Crumbs(Segments(path))
  {
    var normalized := TrimTrailing(CollapseLeading(path));
    CollapseKeepsSegments(path);
    TrailingKeepsSegments(CollapseLeading(path));
    if normalized == "" {
      normalized := "/";
    }
    assert Segments("/") == Segments("/"[1..]);
    crumbs := [Crumb("", "/")];
    if normalized == "/" {
      return;
    }
    var parts := Segments(normalized);
    var accumulated := "";
    assert parts[..0] == [];
    for i := 0 to |parts|
      invariant accumulated == RenderNames(parts[..i])
      invariant |crumbs| == i + 1 && crumbs == Crumbs(parts)[..i + 1]
    {
      assert parts[..i + 1][..i] == parts[..i];
      accumulated := accumulated + ("/" + parts[i]);
      crumbs := crumbs + [Crumb(parts[i], accumulated)];
    }
  }

  /** `parent` in the file tree: cut the last slash and the name after it. */
  function TreeParent(currentPath: string): Option<string> {
    if currentPath == "/" then None
    else
      LastSegmentIs(currentPath);
      var last := LastSegment(currentPath);
      var n := |currentPath| - |last| - 1;
      var cut := if last != "" && n >= 0 then currentPath[..n] else currentPath;
      Some(if cut == "" then "/" else cut)
  }

  lemma {:induction false} LastSegmentOf(before: string, name: string)
    requires '/' !in name
    ensures LastSegment(before + "/" + name) == name
  {
    var p := before + "/" + name;
    if name == "" {
      assert p[|p| - 1] == '/';
    } else {
      var m := |name| - 1;
      assert p[..|p| - 1] == before + "/" + name[..m];
      LastSegmentOf(before, name[..m]);
      assert name == name[..m] + [name[m]];
    }
  }

  function Captions(crumbs: seq<Crumb>): seq<string> {
    seq(|crumbs|, i requires 0 <= i < |crumbs| => crumbs[i].caption)
  }

  lemma ParentCuts(before: string, name: string)
    requires IsName(name)
    ensures TreeParent(before + "/" + name) == Some(if before == "" then "/" else before)
  {
    var p := before + "/" + name;
    LastSegmentOf(before, name);
    assert |p| >= 2 && p[..|before|] == before;
  }

  lemma ParentOfRendered(segs: Path)
    requires AllNames(segs) && segs != []
    ensures TreeParent(RenderNames(segs)) == Some(Render(segs[..|segs| - 1]))
  {
    var front := segs[..|segs| - 1];
    ParentCuts(RenderNames(front), segs[|segs| - 1]);
    RenderedIsTidy(front);
  }

  lemma CrumbPaths(segs: Path, i: nat)
    requires i <= |segs|
    ensures Crumbs(segs)[i].path == Render(segs[..i])
  {
    assert segs[..0] == [];
  }

  lemma CaptionsRejoin(segs: Path)
    ensures "/" + Join(Captions(Crumbs(segs))[1..]) == Render(segs)
  {
    assert Captions(Crumbs(segs))[1..] == segs;
    SlashJoinRenders(segs);
  }

  /** The last crumb is the path, the tree's parent is the crumb before it, and the captions joined
      give the path back. */
  ghost predicate Agree(p: string, crumbs: seq<Crumb>)
    requires crumbs != []
  {
    && crumbs[|crumbs| - 1].path == p
    && TreeParent(p) == (if |crumbs| > 1 then Some(crumbs[|crumbs| - 2].path) else None)
    && "/" + Join(Captions(crumbs)[1..]) == p
  }

  lemma RenderedViewsAgree(segs: Path)
    requires AllNames(segs)
    ensures Agree(Render(segs), Crumbs(segs))
  {
    var n: nat := |segs|;
    assert segs[..n] == segs;
    CrumbPaths(segs, n);
    CaptionsRejoin(segs);
    if n > 0 {
      ParentOfRendered(segs);
      CrumbPaths(segs, n - 1);
    }
  }

  /** The views agree on every canonical path. */
  lemma ViewsAgree(p: string)
    requires Canonical(p)
    ensures Agree(p, Crumbs(Segments(p)))
  {
    RenderedViewsAgree(Segments(p));
  }

  ghost predicate Stable(path: string) { NormalizeRemotePath(path) == path }

  predicate EndsInSpace(name: string) { name != "" && IsSpace(name[|name| - 1]) }

  lemma RenderedNormalizes(segs: Path)
    requires AllNames(segs) && segs != []
    ensures Stable(RenderNames(segs)) <==> !EndsInSpace(segs[|segs| - 1])
  {
    SegmentsOfRender(segs);
    assert IsName(segs[|segs| - 1]);
    NormalizeCanonical(RenderNames(segs));
  }

  lemma RootNormalizes()
    ensures Stable("/")
  {
  }

  lemma CrumbStable(segs: Path, k: nat)
    requires AllNames(segs) && k <= |segs|
    ensures Stable(Crumbs(segs)[k].path) <==> k == 0 || !EndsInSpace(segs[k - 1])
  {
    CrumbPaths(segs, k);
    if k == 0 {
      RootNormalizes();
    } else {
      RenderedNormalizes(segs[..k]);
      assert segs[..k][|segs[..k]| - 1] == segs[k - 1];
    }
  }

  /** Clicking a crumb navigates to that very crumb exactly when it is the root's or its name does
      not end in white space. */
  lemma CrumbNormalizesToItself(p: string, k: nat)
    requires Canonical(p) && k <= |Segments(p)|
    ensures Stable(Crumbs(Segments(p))[k].path) <==> k == 0 || !EndsInSpace(Segments(p)[k - 1])
  {
    CrumbStable(Segments(p), k);
  }
}
