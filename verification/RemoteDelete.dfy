/** Deleting a selection in the file manager: reduce it to its topmost paths, then remove each
    subtree bottom-up. */
module RemoteDelete {
  import opened Wrappers
  import opened RemotePaths
  import opened RemoteFs

  function Prune(fs: Fs, p: Path): Fs { map q | q in fs && !(p <= q) :: fs[q] }

  ghost predicate Below(roots: set<Path>, q: Path) { exists r :: r in roots && r <= q }

  ghost function PruneAll(fs: Fs, roots: set<Path>): Fs { map q | q in fs && !Below(roots, q) :: fs[q] }

  /** What the server refuses: removing a path, listing a directory, telling a path's kind. */
  datatype Server = Server(denied: set<Path>, unreadable: set<Path>, unstatable: set<Path>)

  predicate Refuses(server: Server, q: Path, node: Node) {
    q in server.denied || (node.DirNode? && q in server.unreadable)
  }

  /** Some removal or listing in the subtree is refused. */
  ghost predicate Blocked(fs: Fs, server: Server, p: Path) {
    exists q :: q in fs && p <= q && Refuses(server, q, fs[q])
  }

  /** What may be left when a deletion stops half-way: only the subtree has changed. */
  ghost predicate PartlyPruned(fs: Fs, left: Fs, p: Path) {
    && (forall q :: q in left ==> q in fs && left[q] == fs[q])
    && (forall q :: q in fs && !(p <= q) ==> q in left)
  }

  predicate IsChild(dir: Path, q: Path) { |q| == |dir| + 1 && dir <= q }

  lemma ChildAbove(fs: Fs, dir: Path, q: Path)
    requires Closed(fs) && q in fs && dir < q
    ensures var c := q[..|dir| + 1]; c in fs && IsChild(dir, c) && c <= q
  {
    var c := q[..|dir| + 1];
    if c != q { AncestorsAreDirs(fs, q, c); }
  }

  lemma PruneClosed(fs: Fs, p: Path)
    requires Closed(fs) && p != []
    ensures Closed(Prune(fs, p))
  {
    forall q | q in fs && !(p <= q) && q != []
      ensures !(p <= Parent(q))
    {
      assert p <= Parent(q) ==> p <= q;
    }
  }

  lemma PruneMore(fs: Fs, roots: set<Path>, p: Path)
    ensures Prune(PruneAll(fs, roots), p) == PruneAll(fs, roots + {p})
  {
    assert forall q :: Below(roots + {p}, q) <==> Below(roots, q) || p <= q;
  }

  predicate Siblings(dir: Path, roots: set<Path>) { forall r :: r in roots ==> IsChild(dir, r) }

  /** Removing some children of a directory leaves the others' subtrees as they were. */
  lemma SiblingIntact(fs: Fs, server: Server, dir: Path, roots: set<Path>, c: Path)
    requires Siblings(dir, roots) && IsChild(dir, c) && c !in roots
    ensures forall q :: q in fs && c <= q ==> q in PruneAll(fs, roots)
    ensures Blocked(PruneAll(fs, roots), server, c) <==> Blocked(fs, server, c)
  {
    forall q | q in fs && c <= q
      ensures q in PruneAll(fs, roots)
    {
      forall r | r in roots
        ensures !(r <= q)
      {
        assert q[..|dir| + 1] == c;
        assert q[..|dir| + 1] != r;
      }
    }
  }

  /** When all children of a directory are gone, only it is left of its subtree. */
  lemma ChildrenGone(fs: Fs, dir: Path, roots: set<Path>)
    requires Closed(fs) && IsDir(fs, dir)
    requires forall q :: q in roots <==> q in fs && IsChild(dir, q)
    ensures forall q :: q in PruneAll(fs, roots) ==> !(dir < q)
    ensures Prune(PruneAll(fs, roots), dir) == Prune(fs, dir)
    ensures dir in PruneAll(fs, roots)
  {
    forall q | q in fs && dir < q
      ensures Below(roots, q)
    {
      ChildAbove(fs, dir, q);
      assert q[..|dir| + 1] in roots;
    }
    forall q | q in fs && Below(roots, q)
      ensures dir <= q && q != dir
    {
    }
  }

  lemma BlockedInDir(fs: Fs, server: Server, dir: Path, roots: set<Path>)
    requires Closed(fs) && dir in fs
    requires forall q :: q in roots <==> q in fs && IsChild(dir, q)
    requires forall c :: c in roots ==> !Blocked(fs, server, c)
    ensures Blocked(fs, server, dir) <==> Refuses(server, dir, fs[dir])
  {
    forall q | q in fs && dir < q
      ensures !Refuses(server, q, fs[q])
    {
      ChildAbove(fs, dir, q);
      assert !Blocked(fs, server, q[..|dir| + 1]);
    }
    assert dir <= dir;
    forall q | q in fs && dir <= q && Refuses(server, q, fs[q])
      ensures q == dir
    {
      assert q == dir || dir < q;
    }
  }

  lemma FileBlocked(fs: Fs, server: Server, p: Path)
    requires Closed(fs) && IsFile(fs, p)
    ensures Blocked(fs, server, p) <==> p in server.denied
  {
    forall q | q in fs && p <= q
      ensures q == p
    {
      if p < q { AncestorsAreDirs(fs, q, p); }
    }
  }

  lemma UnreadableBlocks(fs: Fs, server: Server, dir: Path)
    requires IsDir(fs, dir) && dir in server.unreadable
    ensures Blocked(fs, server, dir) && PartlyPruned(fs, fs, dir)
  {
    assert dir <= dir && Refuses(server, dir, fs[dir]);
  }

  lemma PartWithin(fs: Fs, left: Fs, dir: Path, roots: set<Path>, c: Path)
    requires Siblings(dir, roots) && IsChild(dir, c)
    requires PartlyPruned(PruneAll(fs, roots), left, c)
    ensures PartlyPruned(fs, left, dir)
  {
    forall q | q in fs && !(dir <= q)
      ensures q in left
    {
      assert !Below(roots, q) && !(c <= q);
    }
  }

  function Subtree(fs: Fs, p: Path): set<Path> { set q | q in fs && p <= q }

  lemma SubtreeShrinks(fs: Fs, now: Fs, dir: Path, c: Path)
    requires now.Keys <= fs.Keys && dir in fs && IsChild(dir, c)
    ensures Subtree(now, c) < Subtree(fs, dir)
  {
    assert dir <= dir && dir in Subtree(fs, dir) && dir !in Subtree(now, c);
  }

  /** One round of the loop over the children, `left` being what the removal of `c` left behind. */
  lemma AfterChild(fs: Fs, server: Server, dir: Path, roots: set<Path>, c: Path, left: Fs, ok: bool)
    requires Siblings(dir, roots) && IsChild(dir, c) && c !in roots
    requires ok <==> !Blocked(PruneAll(fs, roots), server, c)
    requires ok ==> left == Prune(PruneAll(fs, roots), c)
    requires PartlyPruned(PruneAll(fs, roots), left, c)
    ensures ok <==> !Blocked(fs, server, c)
    ensures ok ==> left == PruneAll(fs, roots + {c})
    ensures PartlyPruned(fs, left, dir)
    ensures !ok ==> Blocked(fs, server, dir)
  {
    SiblingIntact(fs, server, dir, roots, c);
    PruneMore(fs, roots, c);
    PartWithin(fs, left, dir, roots, c);
    if !ok {
      var q :| q in fs && c <= q && Refuses(server, q, fs[q]);
      assert dir <= q;
    }
  }

  /** After the last round. */
  lemma AfterLastChild(fs: Fs, server: Server, dir: Path, roots: set<Path>)
    requires Closed(fs) && IsDir(fs, dir)
    requires forall q :: q in roots <==> q in fs && IsChild(dir, q)
    requires forall c :: c in roots ==> !Blocked(fs, server, c)
    ensures IsDir(PruneAll(fs, roots), dir) && forall q :: q in PruneAll(fs, roots) ==> !(dir < q)
    ensures Prune(PruneAll(fs, roots), dir) == Prune(fs, dir)
    ensures Blocked(fs, server, dir) <==> Refuses(server, dir, fs[dir])
    ensures PartlyPruned(fs, PruneAll(fs, roots), dir) && PartlyPruned(fs, Prune(fs, dir), dir)
  {
    ChildrenGone(fs, dir, roots);
    BlockedInDir(fs, server, dir, roots);
  }

  class RemoteClient {
    var nodes: Fs
    const server: Server

    ghost predicate Valid()
      reads this
    {
      Closed(nodes) && [] in server.denied
    }

    /** The root itself cannot be removed. */
    constructor (fs: Fs, refusing: Server)
      requires Closed(fs)
      ensures Valid() && nodes == fs
      ensures server == refusing.(denied := refusing.denied + {[]})
    {
      nodes := fs;
      server := refusing.(denied := refusing.denied + {[]});
    }

    /** Removes a file. */
    method Remove(p: Path) returns (ok: bool)
      requires Valid()
      modifies this
      ensures Valid()
      ensures ok <==> old(IsFile(nodes, p)) && p !in server.denied
      ensures nodes == if ok then Prune(old(nodes), p) else old(nodes)
    {
      ok := p in nodes && nodes[p].FileNode? && p !in server.denied;
      if ok {
        forall q | q in nodes && p <= q
          ensures q == p
        {
          if p < q { AncestorsAreDirs(nodes, q, p); }
        }
        PruneClosed(nodes, p);
        nodes := map q | q in nodes && q != p :: nodes[q];
      }
    }

    /** Removes a directory, which must be empty. */
    method RemoveDirectory(p: Path) returns (ok: bool)
      requires Valid()
      modifies this
      ensures Valid()
      ensures ok <==> old(IsDir(nodes, p)) && p !in server.denied && forall q :: q in old(nodes) ==> !(p < q)
      ensures nodes == if ok then Prune(old(nodes), p) else old(nodes)
    {
      ok := p in nodes && nodes[p].DirNode? && p !in server.denied && forall q :: q in nodes ==> !(p < q);
      if ok {
        PruneClosed(nodes, p);
        nodes := map q | q in nodes && q != p :: nodes[q];
      }
    }

    /** The entries of a directory with their kinds, as read at once; may be refused. */
    method ReadDir(dir: Path) returns (entries: Option<map<Path, bool>>)
      requires IsDir(nodes, dir)
      ensures entries.None? <==> dir in server.unreadable
      ensures entries.Some? ==>
                && (forall q :: q in entries.value <==> q in nodes && IsChild(dir, q))
                && (forall q :: q in entries.value ==> entries.value[q] == nodes[q].DirNode?)
    {
      if dir in server.unreadable {
        return None;
      }
      return Some(map q | q in nodes && IsChild(dir, q) :: nodes[q].DirNode?);
    }

    /** Removes the children one by one, each with everything below it, then the directory. It
        terminates, succeeds exactly when no removal or listing in the subtree is refused, and then
        leaves everything but the subtree; on a refusal it leaves everything outside it alone. */
    method DeleteDirRecursive(dir: Path) returns (ok: bool)
      requires Valid() && IsDir(nodes, dir)
      modifies this
      ensures Valid()
      ensures ok <==> !Blocked(old(nodes), server, dir)
      ensures ok ==> nodes == Prune(old(nodes), dir)
      ensures PartlyPruned(old(nodes), nodes, dir)
      decreases Subtree(nodes, dir)
    {
      ghost var fs := nodes;
      var listing := ReadDir(dir);
      if listing.None? {
        UnreadableBlocks(nodes, server, dir);
        return false;
      }
      var entries := listing.value;
      var todo := entries.Keys;
      while todo != {}
        invariant todo <= entries.Keys
        invariant Valid() && nodes == PruneAll(fs, entries.Keys - todo)
        invariant forall c :: c in entries.Keys - todo ==> !Blocked(fs, server, c)
        decreases todo
      {
        var c :| c in todo;
        ghost var done := entries.Keys - todo;
        SiblingIntact(fs, server, dir, done, c);
        if entries[c] {
          SubtreeShrinks(fs, nodes, dir, c);
          ok := DeleteDirRecursive(c);
        } else {
          FileBlocked(nodes, server, c);
          ok := Remove(c);
        }
        AfterChild(fs, server, dir, done, c, nodes, ok);
        if !ok {
          return false;
        }
        todo := todo - {c};
        assert entries.Keys - todo == done + {c};
      }
      assert entries.Keys - todo == entries.Keys;
      AfterLastChild(fs, server, dir, entries.Keys);
      ok := RemoveDirectory(dir);
    }

    /** `Delete`: fails for a path whose kind cannot be told, as of one that does not exist. */
    method Delete(p: Path) returns (ok: bool)
      requires Valid()
      modifies this
      ensures Valid()
      ensures ok <==> p in old(nodes) && p !in server.unstatable && !Blocked(old(nodes), server, p)
      ensures ok ==> nodes == Prune(old(nodes), p)
      ensures PartlyPruned(old(nodes), nodes, p)
    {
      if p !in nodes || p in server.unstatable {
        return false;
      }
      if nodes[p].DirNode? {
        ok := DeleteDirRecursive(p);
      } else {
        FileBlocked(nodes, server, p);
        ok := Remove(p);
      }
    }
  }

  // ----- the selection -----

  /** A selection is a set of canonical paths, here listed once each. */
  predicate Selection(paths: seq<string>) {
    && (forall p :: p in paths ==> Canonical(p))
    && forall i, j :: 0 <= i < j < |paths| ==> paths[i] != paths[j]
  }

  predicate InsideAnother(paths: seq<string>, p: string) {
    exists other :: other in paths && other != p && other + "/" <= p
  }

  function KeepTopmost(todo: seq<string>, paths: seq<string>): seq<string> {
    if todo == [] then []
    else
      var n := |todo| - 1;
      KeepTopmost(todo[..n], paths) + if InsideAnother(paths, todo[n]) then [] else [todo[n]]
  }

  /** `pathsToDelete` */
  function PathsToDelete(paths: seq<string>): seq<string> { KeepTopmost(paths, paths) }

  lemma {:induction false} RenderPrefix(a: Path, b: Path)
    requires a < b
    ensures RenderNames(a) + "/" <= RenderNames(b)
    decreases |b|
  {
    var n := |b| - 1;
    if |a| == n {
      assert a == b[..n];
    } else {
      RenderPrefix(a, b[..n]);
    }
  }

  lemma {:induction false} FirstName(segs: Path)
    requires AllNames(segs) && segs != []
    ensures |RenderNames(segs)| >= 2 && RenderNames(segs)[0] == '/' && RenderNames(segs)[1] != '/'
  {
    if |segs| > 1 {
      FirstName(segs[..|segs| - 1]);
    } else {
      assert RenderNames(segs) == "/" + segs[0];
    }
  }

  lemma BelowRendered(a: Path, b: Path)
    requires AllNames(a) && AllNames(b) && Render(a) + "/" <= Render(b)
    ensures a <= b && a != b
  {
    var rest := Render(b)[|Render(a)| + 1..];
    assert Render(b) == Render(a) + "/" + rest;
    SegmentsConcat(Render(a), rest);
    SegmentsOfRender(a);
    SegmentsOfRender(b);
  }

  lemma NotBelowDoubleSlash(b: Path)
    requires AllNames(b)
    ensures !("/" + "/" <= Render(b))
  {
    if b != [] {
      FirstName(b);
      assert ("/" + "/")[1] == '/' && Render(b)[1] != '/';
    }
  }

  lemma PrefixOfRendered(a: Path, b: Path)
    requires AllNames(a) && AllNames(b)
    ensures Render(a) + "/" <= Render(b) <==> a != [] && a < b
  {
    NotBelowDoubleSlash(b);
    if a != [] && a < b {
      RenderPrefix(a, b);
    }
    if Render(a) + "/" <= Render(b) {
      BelowRendered(a, b);
    }
  }

  /** The string comparison finds exactly the proper ancestors, except for the root. */
  lemma PrefixIsAncestor(p: string, q: string)
    requires Canonical(p) && Canonical(q)
    ensures p + "/" <= q <==> p != "/" && Segments(p) < Segments(q)
  {
    var a, b := Segments(p), Segments(q);
    PrefixOfRendered(a, b);
    RootIsEmpty();
    assert p == Render(a) && q == Render(b);
  }

  lemma RootIsEmpty()
    ensures Segments("/") == []
  {
    assert Segments("/") == Segments("/"[1..]);
  }

  lemma {:induction false} KeptAre(todo: seq<string>, paths: seq<string>)
    ensures var kept := KeepTopmost(todo, paths);
            && (forall p :: p in kept <==> p in todo && !InsideAnother(paths, p))
            && (Selection(todo) ==> Selection(kept))
  {
    if todo != [] {
      var n := |todo| - 1;
      KeptAre(todo[..n], paths);
      assert todo == todo[..n] + [todo[n]];
      assert Selection(todo) ==> todo[n] !in todo[..n];
    }
  }

  ghost predicate UnderAny(paths: seq<string>, q: Path) { exists p :: p in paths && Segments(p) <= q }

  lemma {:induction false} SomeTopmostAbove(paths: seq<string>, p: string) returns (top: string)
    requires Selection(paths) && p in paths
    ensures top in PathsToDelete(paths) && Segments(top) <= Segments(p)
    ensures p != "/" ==> top != "/"
    decreases |p|
  {
    KeptAre(paths, paths);
    if InsideAnother(paths, p) {
      var other :| other in paths && other != p && other + "/" <= p;
      PrefixIsAncestor(other, p);
      top := SomeTopmostAbove(paths, other);
    } else {
      top := p;
    }
  }

  predicate Antichain(paths: seq<string>) {
    forall p, q :: p in paths && q in paths && p != q ==> !(Segments(p) <= Segments(q))
  }

  /** The reduced list covers exactly what the selection covers, and none of its paths lies under
      another unless the root was selected together with something else. */
  lemma KeptCoversSelection(paths: seq<string>)
    requires Selection(paths)
    ensures var kept := PathsToDelete(paths);
            && Selection(kept)
            && (forall q :: UnderAny(kept, q) <==> UnderAny(paths, q))
            && (Antichain(kept) <==> "/" !in paths || |paths| == 1)
  {
    var kept := PathsToDelete(paths);
    KeptAre(paths, paths);
    forall q | UnderAny(paths, q)
      ensures UnderAny(kept, q)
    {
      var p :| p in paths && Segments(p) <= q;
      var top := SomeTopmostAbove(paths, p);
    }
    if "/" in paths && |paths| > 1 {
      RootKeptBesidesAnother(paths);
    } else {
      forall p, q | p in kept && q in kept && p != q
        ensures !(Segments(p) <= Segments(q))
      {
        PrefixIsAncestor(p, q);
        assert !(p + "/" <= q) by { assert !InsideAnother(paths, q); }
        assert Segments(p) != Segments(q);
      }
    }
  }

  lemma RootKeptBesidesAnother(paths: seq<string>)
    requires Selection(paths) && "/" in paths && |paths| > 1
    ensures !Antichain(PathsToDelete(paths))
  {
    KeptAre(paths, paths);
    var q := if paths[0] == "/" then paths[1] else paths[0];
    var top := SomeTopmostAbove(paths, q);
    SegmentsOfRender([]);
    assert !InsideAnother(paths, "/") by {
      forall other | other in paths
        ensures !(other + "/" <= "/")
      {
        PrefixIsAncestor(other, "/");
      }
    }
    assert Segments("/") <= Segments(top);
  }

  // ----- deleting the selection -----

  ghost predicate Refused(fs: Fs, server: Server, p: string) {
    Segments(p) !in fs || Segments(p) in server.unstatable || Blocked(fs, server, Segments(p))
  }

  /** The paths whose deletion the server would refuse, all measured on one file system. */
  ghost function AllRefused(fs: Fs, server: Server, paths: seq<string>): seq<string> {
    if paths == [] then []
    else
      var n := |paths| - 1;
      AllRefused(fs, server, paths[..n]) + if Refused(fs, server, paths[n]) then [paths[n]] else []
  }

  lemma {:induction false} AllRefusedAre(fs: Fs, server: Server, paths: seq<string>)
    ensures forall p :: p in AllRefused(fs, server, paths) <==> p in paths && Refused(fs, server, p)
  {
    if paths != [] {
      var n := |paths| - 1;
      AllRefusedAre(fs, server, paths[..n]);
      assert paths == paths[..n] + [paths[n]];
    }
  }

  /** Nothing new, nothing lost outside the listed subtrees, nothing left of those not in `errors`. */
  ghost predicate Deleted(fs: Fs, left: Fs, paths: seq<string>, errors: seq<string>) {
    && (forall q :: q in left ==> q in fs && left[q] == fs[q])
    && (forall q :: q in fs && !UnderAny(paths, q) ==> q in left)
    && (forall p, q :: p in paths && p !in errors && q in left ==> !(Segments(p) <= q))
  }

  /** No deletion in an antichain is invalidated by an earlier one. */
  lemma UntouchedByOthers(fs: Fs, now: Fs, server: Server, done: seq<string>, errors: seq<string>, p: string)
    requires Deleted(fs, now, done, errors)
    requires forall d :: d in done ==> !(Segments(d) <= Segments(p)) && !(Segments(p) <= Segments(d))
    ensures Segments(p) in now <==> Segments(p) in fs
    ensures Blocked(now, server, Segments(p)) <==> Blocked(fs, server, Segments(p))
  {
    var s := Segments(p);
    forall q | s <= q
      ensures !UnderAny(done, q)
    {
      forall d | d in done
        ensures !(Segments(d) <= q)
      {
        Comparable(Segments(d), s, q);
      }
    }
    assert s <= s;
  }

  lemma Comparable(a: Path, b: Path, q: Path)
    requires b <= q
    ensures a <= q ==> a <= b || b <= a
  {
    if a <= q {
      assert a == q[..|a|] && b == q[..|b|];
    }
  }

  lemma DeletedMore(fs: Fs, now: Fs, left: Fs, done: seq<string>, errors: seq<string>, p: string, ok: bool)
    requires Deleted(fs, now, done, errors) && p !in done
    requires ok ==> left == Prune(now, Segments(p))
    requires PartlyPruned(now, left, Segments(p))
    ensures Deleted(fs, left, done + [p], if ok then errors else errors + [p])
  {
    var more := done + [p];
    assert forall q :: UnderAny(more, q) <==> UnderAny(done, q) || Segments(p) <= q by {
      assert p in more && forall d :: d in more <==> d in done || d == p;
    }
  }

  ghost predicate LoopState(fs: Fs, server: Server, now: Fs, done: seq<string>, errors: seq<string>) {
    Deleted(fs, now, done, errors) && errors == AllRefused(fs, server, done)
  }

  lemma LoopStep(fs: Fs, server: Server, now: Fs, left: Fs, kept: seq<string>, i: nat, errors: seq<string>, ok: bool)
    requires i < |kept| && Selection(kept) && Antichain(kept)
    requires LoopState(fs, server, now, kept[..i], errors)
    requires var s := Segments(kept[i]);
             && (ok <==> s in now && s !in server.unstatable && !Blocked(now, server, s))
             && (ok ==> left == Prune(now, s))
             && PartlyPruned(now, left, s)
    ensures LoopState(fs, server, left, kept[..i + 1], if ok then errors else errors + [kept[i]])
  {
    var done, p := kept[..i], kept[i];
    assert p !in done && p in kept && forall d :: d in done ==> d in kept;
    UntouchedByOthers(fs, now, server, done, errors, p);
    DeletedMore(fs, now, left, done, errors, p, ok);
    assert kept[..i + 1] == done + [p];
    assert (done + [p])[..i] == done;
  }

  lemma LoopEnd(fs: Fs, server: Server, left: Fs, kept: seq<string>, errors: seq<string>, paths: seq<string>)
    requires LoopState(fs, server, left, kept[..|kept|], errors)
    requires forall q :: UnderAny(kept, q) <==> UnderAny(paths, q)
    ensures Deleted(fs, left, kept, errors) && errors == AllRefused(fs, server, kept)
    ensures errors == [] ==> left == Without(fs, paths)
  {
    assert kept[..|kept|] == kept;
    if errors == [] {
      assert forall q :: q in left <==> q in fs && !UnderAny(kept, q);
    }
  }

  /** The file system minus every selected path and all below it. */
  ghost function Without(fs: Fs, paths: seq<string>): Fs { map q | q in fs && !UnderAny(paths, q) :: fs[q] }

  /** `handleDeleteSelected`, on entries of the file list, of which the root is none.
      Deletes every kept path in turn, collecting the failures. The failures are exactly the kept
      paths that the original tree would have refused, each judged on its own; without any, what
      is left is the original tree minus every selected subtree. */
  method DeleteSelected(client: RemoteClient, paths: seq<string>) returns (errors: seq<string>)
    requires client.Valid() && Selection(paths) && "/" !in paths
    modifies client
    ensures client.Valid()
    ensures errors == AllRefused(old(client.nodes), client.server, PathsToDelete(paths))
    ensures Deleted(old(client.nodes), client.nodes, PathsToDelete(paths), errors)
    ensures errors == [] ==> client.nodes == Without(old(client.nodes), paths)
  {
    ghost var fs := client.nodes;
    var kept := PathsToDelete(paths);
    KeptCoversSelection(paths);
    errors := [];
    assert kept[..0] == [];
    for i := 0 to |kept|
      invariant client.Valid()
      invariant LoopState(fs, client.server, client.nodes, kept[..i], errors)
    {
      var path := kept[i];
      ghost var now, before := client.nodes, errors;
      var ok := client.Delete(Segments(path));
      if !ok {
        errors := errors + [path];
      }
      LoopStep(fs, client.server, now, client.nodes, kept, i, before, ok);
    }
    LoopEnd(fs, client.server, client.nodes, kept, errors, paths);
  }
}
