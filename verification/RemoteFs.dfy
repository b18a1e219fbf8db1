/** The remote file system as its client sees it: a finite set of typed paths closed under parent. */
module RemoteFs {
  import opened Wrappers
  import opened RemotePaths

  datatype Node = DirNode | FileNode(data: string)

  type Fs = map<Path, Node>

  predicate IsDir(fs: Fs, p: Path) { p in fs && fs[p].DirNode? }

  predicate IsFile(fs: Fs, p: Path) { p in fs && fs[p].FileNode? }

  function Parent(p: Path): Path
    requires p != []
  {
    p[..|p| - 1]
  }

  /** The root is a directory and everything else lies in one. */
  ghost predicate Closed(fs: Fs) {
    && IsDir(fs, [])
    && forall p :: p in fs && p != [] ==> IsDir(fs, Parent(p))
  }

  lemma {:induction false} AncestorsAreDirs(fs: Fs, p: Path, q: Path)
    requires Closed(fs) && p in fs && q < p
    ensures IsDir(fs, q)
    decreases |p|
  {
    if q != Parent(p) {
      AncestorsAreDirs(fs, Parent(p), q);
    }
  }

  function Prefixes(p: Path): set<Path> {
    set n | 0 <= n <= |p| :: p[..n]
  }

  lemma PrefixesAre(p: Path, q: Path)
    ensures q in Prefixes(p) <==> q <= p
  {
    if q <= p { assert p[..|q|] == q; }
  }

  /** Succeeds unless a file stands somewhere on the path. */
  function MkdirAll(fs: Fs, p: Path): Option<Fs> {
    if exists q :: q in Prefixes(p) && IsFile(fs, q) then None
    else Some(fs + map q | q in Prefixes(p) :: DirNode)
  }

  /** Creates or replaces a file whose directory exists. */
  function Create(fs: Fs, p: Path, data: string): Option<Fs> {
    if p == [] || !IsDir(fs, Parent(p)) || IsDir(fs, p) then None
    else Some(fs[p := FileNode(data)])
  }

  /** No path disappears or changes its kind. */
  ghost predicate KeepsKinds(cur: Fs, next: Fs) {
    forall q :: q in cur ==> q in next && next[q].DirNode? == cur[q].DirNode?
  }

  lemma MkdirAllEffect(cur: Fs, p: Path)
    requires Closed(cur) && MkdirAll(cur, p).Some?
    ensures var next := MkdirAll(cur, p).value;
            Closed(next) && KeepsKinds(cur, next) && forall q :: q <= p ==> IsDir(next, q)
  {
    var next := MkdirAll(cur, p).value;
    forall q
      ensures q <= p ==> IsDir(next, q) && !IsFile(cur, q)
    {
      PrefixesAre(p, q);
    }
    forall q | q in next && q != []
      ensures IsDir(next, Parent(q))
    {
      PrefixesAre(p, q);
      if q <= p { assert Parent(q) <= p; }
    }
    forall q | q in cur
      ensures next[q].DirNode? == cur[q].DirNode?
    {
      PrefixesAre(p, q);
    }
    assert [] <= p;
  }

  lemma CreateEffect(cur: Fs, p: Path, data: string)
    requires Closed(cur) && Create(cur, p, data).Some?
    ensures var next := Create(cur, p, data).value; Closed(next) && KeepsKinds(cur, next)
  {
    forall q | q in cur && q != []
      ensures Parent(q) != p
    {
      assert IsDir(cur, Parent(q));
    }
  }
}
