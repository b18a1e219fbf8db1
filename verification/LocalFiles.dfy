/** Collecting a dropped folder: the browser reads each directory in batches, and the collector
    flattens it into files with relative paths and a list of empty directories. */
module LocalFiles {
  import opened RemotePaths

  type Data = string

  /** What the browser hands out: a directory answers `readEntries` with one batch after another;
      an empty batch, or nothing left, ends it. */
  datatype Entry = FileEntry(name: string, data: Data) | DirEntry(name: string, reader: Reader)
  datatype Reader = Exhausted | Batch(entries: seq<Entry>, next: Reader)

  /** The directory tree itself. */
  datatype Tree = File(name: string, data: Data) | Dir(name: string, kids: seq<Tree>)

  datatype LocalFile = LocalFile(relativePath: string, data: Data)
  datatype Collected = Collected(files: seq<LocalFile>, emptyDirs: seq<string>)

  /** The tree behind an entry, whatever the batches. */
  function Erase(e: Entry): Tree
    decreases e
  {
    match e
    case FileEntry(name, data) => File(name, data)
    case DirEntry(name, reader) => Dir(name, EraseReader(reader))
  }

  function EraseAll(es: seq<Entry>): (ts: seq<Tree>)
    ensures |ts| == |es|
    decreases es
  {
    if es == [] then [] else [Erase(es[0])] + EraseAll(es[1..])
  }

  function EraseReader(r: Reader): seq<Tree>
    decreases r
  {
    match r
    case Exhausted => []
    case Batch(es, next) => if es == [] then [] else EraseAll(es) + EraseReader(next)
  }

  // ----- what is to be collected -----

  datatype At = At(path: Path, data: Data)

  function Files(t: Tree, base: Path): seq<At>
    decreases t
  {
    match t
    case File(name, data) => [At(base + [name], data)]
    case Dir(name, kids) => FilesAll(kids, base + [name])
  }

  function FilesAll(ts: seq<Tree>, base: Path): seq<At>
    decreases ts
  {
    if ts == [] then [] else Files(ts[0], base) + FilesAll(ts[1..], base)
  }

  function EmptyDirs(t: Tree, base: Path): seq<Path>
    decreases t
  {
    match t
    case File(_, _) => []
    case Dir(name, kids) => if kids == [] then [base + [name]] else EmptyDirsAll(kids, base + [name])
  }

  function EmptyDirsAll(ts: seq<Tree>, base: Path): seq<Path>
    decreases ts
  {
    if ts == [] then [] else EmptyDirs(ts[0], base) + EmptyDirsAll(ts[1..], base)
  }

  function Named(fs: seq<At>): seq<LocalFile> {
    seq(|fs|, i requires 0 <= i < |fs| => LocalFile(Join(fs[i].path), fs[i].data))
  }

  function NamedDirs(ds: seq<Path>): seq<string> {
    seq(|ds|, i requires 0 <= i < |ds| => Join(ds[i]))
  }

  /** Something is collected from every tree, so an empty result means a childless directory. */
  lemma {:induction false} SomethingCollected(t: Tree, base: Path)
    ensures Files(t, base) != [] || EmptyDirs(t, base) != []
    decreases t
  {
    if t.Dir? && t.kids != [] {
      SomethingCollected(t.kids[0], base + [t.name]);
    }
  }

  lemma {:induction false} FilesAllAppend(ts: seq<Tree>, us: seq<Tree>, base: Path)
    ensures FilesAll(ts + us, base) == FilesAll(ts, base) + FilesAll(us, base)
    ensures EmptyDirsAll(ts + us, base) == EmptyDirsAll(ts, base) + EmptyDirsAll(us, base)
  {
    if ts == [] {
      assert ts + us == us;
    } else {
      assert (ts + us)[1..] == ts[1..] + us;
      FilesAllAppend(ts[1..], us, base);
    }
  }

  lemma {:induction false} EraseAllAppend(es: seq<Entry>, e: Entry)
    ensures EraseAll(es + [e]) == EraseAll(es) + [Erase(e)]
  {
    if es == [] {
      assert es + [e] == [e];
    } else {
      assert (es + [e])[1..] == es[1..] + [e];
      EraseAllAppend(es[1..], e);
    }
  }

  predicate ValidNames(e: Entry)
    decreases e
  {
    match e
    case FileEntry(name, _) => IsName(name)
    case DirEntry(name, reader) => IsName(name) && ValidReader(reader)
  }

  predicate ValidReader(r: Reader)
    decreases r
  {
    match r
    case Exhausted => true
    case Batch(es, next) => (forall e :: e in es ==> ValidNames(e)) && ValidReader(next)
  }

  function Size(e: Entry): nat
    decreases e
  {
    match e
    case FileEntry(_, _) => 1
    case DirEntry(_, reader) => 1 + SizeReader(reader)
  }

  function SizeAll(es: seq<Entry>): nat
    decreases es
  {
    if es == [] then 0 else Size(es[0]) + SizeAll(es[1..])
  }

  function SizeReader(r: Reader): nat
    decreases r
  {
    match r
    case Exhausted => 0
    case Batch(es, next) => 1 + SizeAll(es) + SizeReader(next)
  }

  lemma {:induction false} SizeOfMember(es: seq<Entry>, i: nat)
    requires i < |es|
    ensures Size(es[i]) <= SizeAll(es)
  {
    if i > 0 { SizeOfMember(es[1..], i - 1); }
  }

  /** The collection of a forest under a directory. */
  function Listing(ts: seq<Tree>, dir: Path): Collected {
    Collected(Named(FilesAll(ts, dir)), NamedDirs(EmptyDirsAll(ts, dir)))
  }

  function Plus(a: Collected, b: Collected): Collected {
    Collected(a.files + b.files, a.emptyDirs + b.emptyDirs)
  }

  lemma ListingAppend(ts: seq<Tree>, us: seq<Tree>, dir: Path)
    ensures Listing(ts + us, dir) == Plus(Listing(ts, dir), Listing(us, dir))
  {
    FilesAllAppend(ts, us, dir);
    assert forall a, b :: Named(a + b) == Named(a) + Named(b);
    assert forall a, b :: NamedDirs(a + b) == NamedDirs(a) + NamedDirs(b);
  }

  lemma JoinChild(dir: Path, name: string)
    requires dir != []
    ensures Join(dir + [name]) == Join(dir) + "/" + name
  {
    assert (dir + [name])[..|dir|] == dir;
  }

  lemma DirPathJoins(base: Path, name: string)
    requires AllNames(base)
    ensures Join(base + [name]) == if Join(base) != "" then Join(base) + "/" + name else name
  {
    SegmentsOfJoin(base);
    if base != [] { JoinChild(base, name); }
  }

  function Found(t: Tree, base: Path): Collected {
    Collected(Named(Files(t, base)), NamedDirs(EmptyDirs(t, base)))
  }

  /** A directory is reported as empty exactly when its children gave nothing. */
  lemma FoundInDir(name: string, kids: seq<Tree>, base: Path)
    ensures var inner := Listing(kids, base + [name]);
            Found(Dir(name, kids), base) ==
            if inner.files == [] && inner.emptyDirs == [] then Collected([], [Join(base + [name])]) else inner
  {
    if kids != [] { SomethingCollected(kids[0], base + [name]); }
  }

  /** `readDirectoryEntry`: for every batching it yields every file of the tree exactly once, with
      its relative path, and exactly the childless directories. */
  method ReadDirectoryEntry(entry: Entry, basePath: string, ghost base: Path) returns (c: Collected)
    requires entry.DirEntry? && ValidNames(entry)
    requires AllNames(base) && basePath == Join(base)
    ensures c == Found(Erase(entry), base)
    decreases Size(entry), 0
  {
    c := Collected([], []);
    ghost var dir := base + [entry.name];
    DirPathJoins(base, entry.name);
    var dirPath := if basePath != "" then basePath + "/" + entry.name else entry.name;
    var reader := entry.reader;
    ghost var seen: seq<Tree> := [];
    while reader.Batch? && reader.entries != []
      invariant ValidReader(reader) && SizeReader(reader) < Size(entry)
      invariant EraseReader(entry.reader) == seen + EraseReader(reader)
      invariant c == Listing(seen, dir)
      decreases reader
    {
      var batch := ReadBatch(reader.entries, dirPath, dir);
      ListingAppend(seen, EraseAll(reader.entries), dir);
      c := Collected(c.files + batch.files, c.emptyDirs + batch.emptyDirs);
      seen := seen + EraseAll(reader.entries);
      reader := reader.next;
    }
    assert EraseReader(entry.reader) == seen;
    FoundInDir(entry.name, seen, base);
    if |c.files| == 0 && |c.emptyDirs| == 0 {
      c := c.(emptyDirs := c.emptyDirs + [dirPath]);
    }
  }

  /** The loop over one batch. */
  method ReadBatch(entries: seq<Entry>, dirPath: string, ghost dir: Path) returns (c: Collected)
    requires forall e :: e in entries ==> ValidNames(e)
    requires AllNames(dir) && dir != [] && dirPath == Join(dir)
    ensures c == Listing(EraseAll(entries), dir)
    decreases SizeAll(entries), 1
  {
    c := Collected([], []);
    var i := 0;
    while i < |entries|
      invariant 0 <= i <= |entries|
      invariant c == Listing(EraseAll(entries[..i]), dir)
    {
      var child := entries[i];
      ghost var t := Erase(child);
      SizeOfMember(entries, i);
      EraseAllAppend(entries[..i], child);
      assert entries[..i + 1] == entries[..i] + [child];
      ListingAppend(EraseAll(entries[..i]), [t], dir);
      assert FilesAll([t], dir) == Files(t, dir) && EmptyDirsAll([t], dir) == EmptyDirs(t, dir);
      if child.FileEntry? {
        JoinChild(dir, child.name);
        c := c.(files := c.files + [LocalFile(dirPath + "/" + child.name, child.data)]);
      } else {
        var nested := ReadDirectoryEntry(child, dirPath, dir);
        c := Collected(c.files + nested.files, c.emptyDirs + nested.emptyDirs);
      }
      i := i + 1;
    }
    assert entries[..|entries|] == entries;
  }

  // ----- the tree as paths -----

  predicate IsFileOf(t: Tree, base: Path, q: Path, d: Data)
    decreases t
  {
    match t
    case File(name, data) => q == base + [name] && d == data
    case Dir(name, kids) => IsFileIn(kids, base + [name], q, d)
  }

  predicate IsFileIn(ts: seq<Tree>, base: Path, q: Path, d: Data)
    decreases ts
  {
    ts != [] && (IsFileOf(ts[0], base, q, d) || IsFileIn(ts[1..], base, q, d))
  }

  predicate IsDirOf(t: Tree, base: Path, q: Path)
    decreases t
  {
    t.Dir? && (q == base + [t.name] || IsDirIn(t.kids, base + [t.name], q))
  }

  predicate IsDirIn(ts: seq<Tree>, base: Path, q: Path)
    decreases ts
  {
    ts != [] && (IsDirOf(ts[0], base, q) || IsDirIn(ts[1..], base, q))
  }

  /** The collected files are the files of the tree. */
  lemma {:induction false} FilesOfTree(t: Tree, base: Path, q: Path, d: Data)
    ensures At(q, d) in Files(t, base) <==> IsFileOf(t, base, q, d)
    decreases t
  {
    if t.Dir? { FilesOfForest(t.kids, base + [t.name], q, d); }
  }

  lemma {:induction false} FilesOfForest(ts: seq<Tree>, base: Path, q: Path, d: Data)
    ensures At(q, d) in FilesAll(ts, base) <==> IsFileIn(ts, base, q, d)
    decreases ts
  {
    if ts != [] {
      FilesOfTree(ts[0], base, q, d);
      FilesOfForest(ts[1..], base, q, d);
    }
  }

  ghost predicate AboveFile(fs: seq<At>, q: Path) { exists f :: f in fs && q < f.path }

  ghost predicate AboveDir(ds: seq<Path>, q: Path) { exists e :: e in ds && q <= e }

  lemma {:induction false} PathsExtend(ts: seq<Tree>, base: Path)
    ensures forall f :: f in FilesAll(ts, base) ==> base < f.path
    ensures forall e :: e in EmptyDirsAll(ts, base) ==> base < e
    decreases ts
  {
    if ts != [] {
      PathExtends(ts[0], base);
      PathsExtend(ts[1..], base);
    }
  }

  lemma {:induction false} PathExtends(t: Tree, base: Path)
    ensures forall f :: f in Files(t, base) ==> base + [t.name] <= f.path
    ensures forall e :: e in EmptyDirs(t, base) ==> base + [t.name] <= e
    decreases t
  {
    if t.Dir? { PathsExtend(t.kids, base + [t.name]); }
  }

  /** The directories of a tree are exactly the paths above its files and above or at its childless
      directories: nothing of the shape is lost by collecting only those. */
  lemma {:induction false} DirsOfTree(t: Tree, base: Path, q: Path)
    ensures IsDirOf(t, base, q) <==>
            |q| > |base| && (AboveFile(Files(t, base), q) || AboveDir(EmptyDirs(t, base), q))
    decreases t
  {
    PathExtends(t, base);
    if t.Dir? {
      var dir := base + [t.name];
      DirsOfForest(t.kids, dir, q);
      PathsExtend(t.kids, dir);
      SomethingCollected(t, base);
      if q == dir {
        if Files(t, base) != [] {
          assert Files(t, base)[0] in FilesAll(t.kids, dir);
        } else {
          assert EmptyDirs(t, base)[0] in EmptyDirs(t, base);
        }
      }
    }
  }

  lemma {:induction false} DirsOfForest(ts: seq<Tree>, base: Path, q: Path)
    ensures IsDirIn(ts, base, q) <==>
            |q| > |base| && (AboveFile(FilesAll(ts, base), q) || AboveDir(EmptyDirsAll(ts, base), q))
    decreases ts
  {
    if ts != [] {
      DirsOfTree(ts[0], base, q);
      DirsOfForest(ts[1..], base, q);
      var fs, gs := Files(ts[0], base), FilesAll(ts[1..], base);
      assert forall f :: f in fs + gs <==> f in fs || f in gs;
      var ds, es := EmptyDirs(ts[0], base), EmptyDirsAll(ts[1..], base);
      assert forall e :: e in ds + es <==> e in ds || e in es;
    }
  }

  // ----- distinct names -----

  predicate WellFormed(t: Tree)
    decreases t
  {
    IsName(t.name) && (t.Dir? ==> WellFormedAll(t.kids))
  }

  /** Names are proper and no two siblings share one, as in any file system. */
  predicate WellFormedAll(ts: seq<Tree>)
    decreases ts
  {
    ts != [] ==>
      && WellFormed(ts[0]) && WellFormedAll(ts[1..])
      && forall u :: u in ts[1..] ==> u.name != ts[0].name
  }

  predicate Under(ts: seq<Tree>, base: Path, q: Path) {
    exists u :: u in ts && base + [u.name] <= q
  }

  lemma {:induction false} FilesAreUnder(ts: seq<Tree>, base: Path)
    ensures forall f :: f in FilesAll(ts, base) ==> Under(ts, base, f.path)
    ensures forall e :: e in EmptyDirsAll(ts, base) ==> Under(ts, base, e)
    decreases ts
  {
    if ts != [] {
      PathExtends(ts[0], base);
      FilesAreUnder(ts[1..], base);
      assert forall q :: Under(ts[1..], base, q) ==> Under(ts, base, q);
      assert ts[0] in ts;
    }
  }

  /** Two trees of a well-formed forest have nothing in common. */
  lemma OneOwner(ts: seq<Tree>, base: Path, q: Path)
    requires ts != [] && WellFormedAll(ts)
    requires base + [ts[0].name] <= q
    ensures !Under(ts[1..], base, q)
  {
    assert (base + [ts[0].name])[|base|] == ts[0].name;
    forall u | u in ts[1..]
      ensures !(base + [u.name] <= q)
    {
      assert (base + [u.name])[|base|] == u.name;
    }
  }

  predicate DistinctPaths(fs: seq<At>) { forall i, j :: 0 <= i < j < |fs| ==> fs[i].path != fs[j].path }

  predicate Distinct<T(==)>(ds: seq<T>) { forall i, j :: 0 <= i < j < |ds| ==> ds[i] != ds[j] }

  /** Every file and every childless directory is listed once. */
  lemma {:induction false} ListedOnce(ts: seq<Tree>, base: Path)
    requires WellFormedAll(ts)
    ensures DistinctPaths(FilesAll(ts, base)) && Distinct(EmptyDirsAll(ts, base))
    decreases ts
  {
    if ts != [] {
      ListedOnceOf(ts[0], base);
      ListedOnce(ts[1..], base);
      PathExtends(ts[0], base);
      FilesAreUnder(ts[1..], base);
      var fs, gs := Files(ts[0], base), FilesAll(ts[1..], base);
      forall i, j | 0 <= i < |fs| && 0 <= j < |gs|
        ensures fs[i].path != gs[j].path
      {
        OneOwner(ts, base, fs[i].path);
        assert gs[j] in gs;
      }
      var ds, es := EmptyDirs(ts[0], base), EmptyDirsAll(ts[1..], base);
      forall i, j | 0 <= i < |ds| && 0 <= j < |es|
        ensures ds[i] != es[j]
      {
        assert ds[i] in ds && es[j] in es;
        OneOwner(ts, base, ds[i]);
      }
    }
  }

  lemma {:induction false} ListedOnceOf(t: Tree, base: Path)
    requires WellFormed(t)
    ensures DistinctPaths(Files(t, base)) && Distinct(EmptyDirs(t, base))
    decreases t
  {
    if t.Dir? { ListedOnce(t.kids, base + [t.name]); }
  }

  /** No file lies on the way to another file or to an empty directory. */
  predicate PrefixFree(fs: seq<At>, ds: seq<Path>) {
    && (forall f, g :: f in fs && g in fs ==> !(f.path < g.path))
    && (forall f, e :: f in fs && e in ds ==> !(f.path <= e))
  }

  /** What one tree lists never lies on the way to what its siblings list, nor the other way. */
  lemma NothingCrosses(ts: seq<Tree>, base: Path, p: Path, q: Path)
    requires ts != [] && WellFormedAll(ts)
    requires base + [ts[0].name] <= p && Under(ts[1..], base, q)
    ensures !(p <= q) && !(q <= p)
  {
    OneOwner(ts, base, p);
    assert forall u :: u in ts[1..] && base + [u.name] <= q && q <= p ==> base + [u.name] <= p;
    if p <= q {
      OneOwner(ts, base, q);
    }
  }

  lemma {:induction false} FilesAreLeaves(ts: seq<Tree>, base: Path)
    requires WellFormedAll(ts)
    ensures PrefixFree(FilesAll(ts, base), EmptyDirsAll(ts, base))
    decreases ts
  {
    if ts != [] {
      FilesAreLeavesOf(ts[0], base);
      FilesAreLeaves(ts[1..], base);
      PathExtends(ts[0], base);
      FilesAreUnder(ts[1..], base);
      var fs, gs := Files(ts[0], base), FilesAll(ts[1..], base);
      var ds, es := EmptyDirs(ts[0], base), EmptyDirsAll(ts[1..], base);
      forall f, g | f in fs && g in gs
        ensures !(f.path < g.path) && !(g.path < f.path)
      {
        NothingCrosses(ts, base, f.path, g.path);
      }
      forall f, e | f in fs && e in es
        ensures !(f.path <= e)
      {
        NothingCrosses(ts, base, f.path, e);
      }
      forall g, d | g in gs && d in ds
        ensures !(g.path <= d)
      {
        NothingCrosses(ts, base, d, g.path);
      }
    }
  }

  lemma {:induction false} FilesAreLeavesOf(t: Tree, base: Path)
    requires WellFormed(t)
    ensures PrefixFree(Files(t, base), EmptyDirs(t, base))
    decreases t
  {
    if t.Dir? { FilesAreLeaves(t.kids, base + [t.name]); }
  }

  /** Nothing listed lies below a listed empty directory. */
  predicate EmptyAbove(fs: seq<At>, ds: seq<Path>) {
    && (forall d, f :: d in ds && f in fs ==> !(d <= f.path))
    && (forall d, e :: d in ds && e in ds ==> !(d < e))
  }

  lemma {:induction false} EmptyDirsAreLeaves(ts: seq<Tree>, base: Path)
    requires WellFormedAll(ts)
    ensures EmptyAbove(FilesAll(ts, base), EmptyDirsAll(ts, base))
    decreases ts
  {
    if ts != [] {
      EmptyDirsAreLeavesOf(ts[0], base);
      EmptyDirsAreLeaves(ts[1..], base);
      PathExtends(ts[0], base);
      FilesAreUnder(ts[1..], base);
      var fs, gs := Files(ts[0], base), FilesAll(ts[1..], base);
      var ds, es := EmptyDirs(ts[0], base), EmptyDirsAll(ts[1..], base);
      forall d, g | d in ds && g in gs
        ensures !(d <= g.path)
      {
        NothingCrosses(ts, base, d, g.path);
      }
      forall f, e | f in fs && e in es
        ensures !(e <= f.path)
      {
        NothingCrosses(ts, base, f.path, e);
      }
      forall d, e | d in ds && e in es
        ensures !(d < e) && !(e < d)
      {
        NothingCrosses(ts, base, d, e);
      }
    }
  }

  lemma {:induction false} EmptyDirsAreLeavesOf(t: Tree, base: Path)
    requires WellFormed(t)
    ensures EmptyAbove(Files(t, base), EmptyDirs(t, base))
    decreases t
  {
    if t.Dir? { EmptyDirsAreLeaves(t.kids, base + [t.name]); }
  }

  // ----- several dropped items -----

  /** The keys under which the collector remembers what it has seen. */
  function DirKey(d: string): string { "dir:" + d }

  function FileKeys(files: seq<LocalFile>): set<string> { set f | f in files :: f.relativePath }

  function DirKeys(dirs: seq<string>): set<string> { set d | d in dirs :: DirKey(d) }

  function Keys(c: Collected): set<string> { FileKeys(c.files) + DirKeys(c.emptyDirs) }

  /** A file's path spells the key of an empty directory. */
  predicate Collides(c: Collected) {
    exists f, d :: f in c.files && d in c.emptyDirs && f.relativePath == DirKey(d)
  }

  /** No key was collected twice. */
  predicate OneEach(c: Collected) { |c.files| + |c.emptyDirs| == |Keys(c)| }

  /** Files have distinct paths and empty directories have distinct paths. */
  predicate NoRepeats(all: Collected) {
    && Distinct(all.emptyDirs)
    && (forall i, j :: 0 <= i < j < |all.files| ==> all.files[i].relativePath != all.files[j].relativePath)
  }

  lemma FileKeysAppend(files: seq<LocalFile>, f: LocalFile)
    ensures FileKeys(files + [f]) == FileKeys(files) + {f.relativePath}
  {
    assert forall x :: x in files + [f] <==> x in files || x == f;
  }

  lemma DirKeysAppend(dirs: seq<string>, d: string)
    ensures DirKeys(dirs + [d]) == DirKeys(dirs) + {DirKey(d)}
  {
    assert forall x :: x in dirs + [d] <==> x in dirs || x == d;
  }

  lemma PrefixStep<T>(a: seq<T>, b: seq<T>, i: nat, whole: seq<T>)
    requires a + b <= whole && i < |b|
    ensures a + b[..i] + [b[i]] <= whole && a + b[..i + 1] == a + b[..i] + [b[i]]
  {
    assert (a + b)[..|a| + i + 1] == a + b[..i] + [b[i]];
  }

  lemma NextFileIsNew(c: Collected, all: Collected)
    requires NoRepeats(all) && !Collides(all)
    requires c.files <= all.files && c.emptyDirs <= all.emptyDirs && |c.files| < |all.files|
    ensures all.files[|c.files|].relativePath !in Keys(c)
  {
    var f := all.files[|c.files|];
    assert f in all.files;
    forall g | g in c.files
      ensures g.relativePath != f.relativePath
    {
      var i :| 0 <= i < |c.files| && c.files[i] == g;
      assert all.files[i] == g;
    }
    assert forall d :: d in c.emptyDirs ==> d in all.emptyDirs;
  }

  lemma NextDirIsNew(c: Collected, all: Collected)
    requires NoRepeats(all) && !Collides(all)
    requires c.files <= all.files && c.emptyDirs <= all.emptyDirs && |c.emptyDirs| < |all.emptyDirs|
    ensures DirKey(all.emptyDirs[|c.emptyDirs|]) !in Keys(c)
  {
    var d := all.emptyDirs[|c.emptyDirs|];
    assert d in all.emptyDirs;
    forall e | e in c.emptyDirs
      ensures DirKey(e) != DirKey(d)
    {
      var i :| 0 <= i < |c.emptyDirs| && c.emptyDirs[i] == e;
      assert all.emptyDirs[i] == e;
      assert DirKey(e)[4..] == e && DirKey(d)[4..] == d;
    }
    assert forall f :: f in c.files ==> f in all.files;
  }

  function AddFile(c: Collected, f: LocalFile): Collected {
    if f.relativePath in Keys(c) then c else c.(files := c.files + [f])
  }

  function AddDir(c: Collected, d: string): Collected {
    if DirKey(d) in Keys(c) then c else c.(emptyDirs := c.emptyDirs + [d])
  }

  lemma AddFileOnce(c: Collected, f: LocalFile)
    requires OneEach(c)
    ensures OneEach(AddFile(c, f)) && Keys(AddFile(c, f)) == Keys(c) + {f.relativePath}
  {
    FileKeysAppend(c.files, f);
    assert Keys(AddFile(c, f)) == Keys(c) + {f.relativePath};
  }

  lemma AddDirOnce(c: Collected, d: string)
    requires OneEach(c)
    ensures OneEach(AddDir(c, d)) && Keys(AddDir(c, d)) == Keys(c) + {DirKey(d)}
  {
    DirKeysAppend(c.emptyDirs, d);
    assert Keys(AddDir(c, d)) == Keys(c) + {DirKey(d)};
  }

  function AddFiles(c: Collected, files: seq<LocalFile>): Collected {
    if files == [] then c else AddFile(AddFiles(c, files[..|files| - 1]), files[|files| - 1])
  }

  function AddDirs(c: Collected, dirs: seq<string>): Collected {
    if dirs == [] then c else AddDir(AddDirs(c, dirs[..|dirs| - 1]), dirs[|dirs| - 1])
  }

  lemma UnionMore<T>(a: set<T>, b: set<T>, x: T)
    ensures (a + b) + {x} == a + (b + {x})
  {
  }

  lemma NoKeys()
    ensures FileKeys([]) == {} && DirKeys([]) == {}
  {
  }

  lemma AddFileAfter(c: Collected, now: Collected, front: seq<LocalFile>, f: LocalFile)
    requires OneEach(now) && Keys(now) == Keys(c) + FileKeys(front)
    ensures OneEach(AddFile(now, f)) && Keys(AddFile(now, f)) == Keys(c) + FileKeys(front + [f])
  {
    AddFileOnce(now, f);
    FileKeysAppend(front, f);
    UnionMore(Keys(c), FileKeys(front), f.relativePath);
  }

  lemma {:induction false} FilesOnce(c: Collected, files: seq<LocalFile>) returns (now: Collected)
    requires OneEach(c)
    ensures now == AddFiles(c, files) && OneEach(now) && Keys(now) == Keys(c) + FileKeys(files)
  {
    if files == [] {
      now := c;
      NoKeys();
    } else {
      var n := |files| - 1;
      assert files == files[..n] + [files[n]];
      var before := FilesOnce(c, files[..n]);
      now := AddFile(before, files[n]);
      AddFileAfter(c, before, files[..n], files[n]);
    }
  }

  lemma AddFilesOnce(c: Collected, files: seq<LocalFile>)
    requires OneEach(c)
    ensures OneEach(AddFiles(c, files)) && Keys(AddFiles(c, files)) == Keys(c) + FileKeys(files)
  {
    var now := FilesOnce(c, files);
  }

  lemma AddDirAfter(c: Collected, now: Collected, front: seq<string>, d: string)
    requires OneEach(now) && Keys(now) == Keys(c) + DirKeys(front)
    ensures OneEach(AddDir(now, d)) && Keys(AddDir(now, d)) == Keys(c) + DirKeys(front + [d])
  {
    AddDirOnce(now, d);
    DirKeysAppend(front, d);
    UnionMore(Keys(c), DirKeys(front), DirKey(d));
  }

  lemma {:induction false} DirsOnce(c: Collected, dirs: seq<string>) returns (now: Collected)
    requires OneEach(c)
    ensures now == AddDirs(c, dirs) && OneEach(now) && Keys(now) == Keys(c) + DirKeys(dirs)
  {
    if dirs == [] {
      now := c;
      NoKeys();
    } else {
      var n := |dirs| - 1;
      assert dirs == dirs[..n] + [dirs[n]];
      var before := DirsOnce(c, dirs[..n]);
      now := AddDir(before, dirs[n]);
      AddDirAfter(c, before, dirs[..n], dirs[n]);
    }
  }

  lemma AddDirsOnce(c: Collected, dirs: seq<string>)
    requires OneEach(c)
    ensures OneEach(AddDirs(c, dirs)) && Keys(AddDirs(c, dirs)) == Keys(c) + DirKeys(dirs)
  {
    var now := DirsOnce(c, dirs);
  }

  /** Without a collision nothing that comes next was seen before. */
  lemma {:induction false} AddFilesFree(c: Collected, files: seq<LocalFile>, all: Collected)
    requires NoRepeats(all) && !Collides(all)
    requires c.files + files <= all.files && c.emptyDirs <= all.emptyDirs
    ensures AddFiles(c, files) == c.(files := c.files + files)
  {
    if files != [] {
      var n := |files| - 1;
      PrefixStep(c.files, files, n, all.files);
      AddFilesFree(c, files[..n], all);
      NextFileIsNew(AddFiles(c, files[..n]), all);
    }
  }

  lemma {:induction false} AddDirsFree(c: Collected, dirs: seq<string>, all: Collected)
    requires NoRepeats(all) && !Collides(all)
    requires c.files <= all.files && c.emptyDirs + dirs <= all.emptyDirs
    ensures AddDirs(c, dirs) == c.(emptyDirs := c.emptyDirs + dirs)
  {
    if dirs != [] {
      var n := |dirs| - 1;
      PrefixStep(c.emptyDirs, dirs, n, all.emptyDirs);
      AddDirsFree(c, dirs[..n], all);
      NextDirIsNew(AddDirs(c, dirs[..n]), all);
    }
  }

  /** The two loops that add one item's findings, unless their key was seen before. */
  method Absorb(seen: set<string>, c: Collected, more: Collected) returns (seen': set<string>, c': Collected)
    requires seen == Keys(c)
    ensures c' == AddDirs(AddFiles(c, more.files), more.emptyDirs) && seen' == Keys(c')
  {
    seen', c' := seen, c;
    var i := 0;
    while i < |more.files|
      invariant 0 <= i <= |more.files|
      invariant c' == AddFiles(c, more.files[..i]) && seen' == Keys(c')
    {
      var f := more.files[i];
      assert more.files[..i + 1][..i] == more.files[..i];
      if f.relativePath !in seen' {
        FileKeysAppend(c'.files, f);
        seen' := seen' + {f.relativePath};
        c' := c'.(files := c'.files + [f]);
      }
      i := i + 1;
    }
    assert more.files[..i] == more.files;
    i := 0;
    while i < |more.emptyDirs|
      invariant 0 <= i <= |more.emptyDirs|
      invariant c' == AddDirs(AddFiles(c, more.files), more.emptyDirs[..i]) && seen' == Keys(c')
    {
      var d := more.emptyDirs[i];
      assert more.emptyDirs[..i + 1][..i] == more.emptyDirs[..i];
      if DirKey(d) !in seen' {
        DirKeysAppend(c'.emptyDirs, d);
        seen' := seen' + {DirKey(d)};
        c' := c'.(emptyDirs := c'.emptyDirs + [d]);
      }
      i := i + 1;
    }
    assert more.emptyDirs[..i] == more.emptyDirs;
  }

  lemma JoinInjective(a: Path, b: Path)
    requires AllNames(a) && AllNames(b) && Join(a) == Join(b)
    ensures a == b
  {
    SegmentsOfJoin(a);
    SegmentsOfJoin(b);
  }

  lemma {:induction false} NamesThroughout(ts: seq<Tree>, base: Path)
    requires WellFormedAll(ts) && AllNames(base)
    ensures forall f :: f in FilesAll(ts, base) ==> AllNames(f.path)
    ensures forall e :: e in EmptyDirsAll(ts, base) ==> AllNames(e)
    decreases ts
  {
    if ts != [] {
      if ts[0].Dir? { NamesThroughout(ts[0].kids, base + [ts[0].name]); }
      NamesThroughout(ts[1..], base);
    }
  }

  /** With distinct sibling names, as in any file system, no path is found twice. */
  lemma ListingNoRepeats(ts: seq<Tree>)
    requires WellFormedAll(ts)
    ensures NoRepeats(Listing(ts, []))
  {
    var fs, ds := FilesAll(ts, []), EmptyDirsAll(ts, []);
    ListedOnce(ts, []);
    NamesThroughout(ts, []);
    forall i, j | 0 <= i < j < |fs|
      ensures Join(fs[i].path) != Join(fs[j].path)
    {
      assert fs[i] in fs && fs[j] in fs;
      if Join(fs[i].path) == Join(fs[j].path) { JoinInjective(fs[i].path, fs[j].path); }
    }
    forall i, j | 0 <= i < j < |ds|
      ensures Join(ds[i]) != Join(ds[j])
    {
      assert ds[i] in ds && ds[j] in ds;
      if Join(ds[i]) == Join(ds[j]) { JoinInjective(ds[i], ds[j]); }
    }
  }

  /** A dropped item: a file under its own name, or a directory read recursively. */
  method CollectFromEntry(entry: Entry) returns (c: Collected)
    requires ValidNames(entry)
    ensures c == Found(Erase(entry), [])
  {
    if entry.FileEntry? {
      assert [] + [entry.name] == [entry.name];
      c := Collected([LocalFile(entry.name, entry.data)], []);
    } else {
      c := ReadDirectoryEntry(entry, "", []);
    }
  }

  /** What `dataTransfer` holds: an item with a file-system entry, one with a plain file under its
      relative path or name, or one with neither. */
  datatype Item = Dropped(entry: Entry) | PlainFile(file: LocalFile) | Nothing

  predicate ValidItem(item: Item) { item.Dropped? ==> ValidNames(item.entry) }

  function FoundInItem(item: Item): Collected {
    match item
    case Dropped(entry) => Found(Erase(entry), [])
    case PlainFile(file) => Collected([file], [])
    case Nothing => Collected([], [])
  }

  /** Everything found in the items, repetitions included. */
  function FoundAll(items: seq<Item>): Collected {
    if items == [] then Collected([], [])
    else Plus(FoundAll(items[..|items| - 1]), FoundInItem(items[|items| - 1]))
  }

  lemma NextItem(items: seq<Item>, i: nat)
    requires i < |items|
    ensures FoundAll(items[..i + 1]) == Plus(FoundAll(items[..i]), FoundInItem(items[i]))
  {
    assert items[..i + 1][..i] == items[..i];
  }

  lemma {:induction false} FirstItems(items: seq<Item>, n: nat)
    requires n <= |items|
    ensures FoundAll(items[..n]).files <= FoundAll(items).files
    ensures FoundAll(items[..n]).emptyDirs <= FoundAll(items).emptyDirs
    decreases |items| - n
  {
    if n == |items| {
      assert items[..n] == items;
    } else {
      FirstItems(items, n + 1);
      NextItem(items, n);
    }
  }

  function DroppedAll(entries: seq<Entry>): seq<Item> {
    seq(|entries|, i requires 0 <= i < |entries| => Dropped(entries[i]))
  }

  /** When all items are dropped entries, what is found is the listing of their forest. */
  lemma {:induction false} FoundIsListing(entries: seq<Entry>)
    ensures FoundAll(DroppedAll(entries)) == Listing(EraseAll(entries), [])
  {
    if entries != [] {
      var n := |entries| - 1;
      var front, t := entries[..n], Erase(entries[n]);
      FoundIsListing(front);
      assert DroppedAll(entries)[..n] == DroppedAll(front);
      EraseAllAppend(front, entries[n]);
      assert entries == front + [entries[n]];
      ListingAppend(EraseAll(front), [t], []);
      assert FilesAll([t], []) == Files(t, []) && EmptyDirsAll([t], []) == EmptyDirs(t, []);
    }
  }

  lemma KeysOfPlus(a: Collected, b: Collected)
    ensures Keys(Plus(a, b)) == Keys(a) + FileKeys(b.files) + DirKeys(b.emptyDirs)
  {
    assert forall f :: f in a.files + b.files <==> f in a.files || f in b.files;
    assert forall d :: d in a.emptyDirs + b.emptyDirs <==> d in a.emptyDirs || d in b.emptyDirs;
  }

  lemma {:induction false} FewFileKeys(files: seq<LocalFile>)
    ensures |FileKeys(files)| <= |files|
  {
    if files != [] {
      var n := |files| - 1;
      FewFileKeys(files[..n]);
      FileKeysAppend(files[..n], files[n]);
      assert files == files[..n] + [files[n]];
    }
  }

  lemma {:induction false} FewDirKeys(dirs: seq<string>)
    ensures |DirKeys(dirs)| <= |dirs|
  {
    if dirs != [] {
      var n := |dirs| - 1;
      FewDirKeys(dirs[..n]);
      DirKeysAppend(dirs[..n], dirs[n]);
      assert dirs == dirs[..n] + [dirs[n]];
    }
  }

  lemma RepeatedFileKeys(files: seq<LocalFile>, i: nat, j: nat)
    requires i < j < |files| && files[i].relativePath == files[j].relativePath
    ensures |FileKeys(files)| < |files|
  {
    var rest := files[..j] + files[j + 1..];
    forall f | f in files
      ensures f.relativePath in FileKeys(rest)
    {
      var k :| 0 <= k < |files| && files[k] == f;
      assert rest[if k < j then k else if k == j then i else k - 1].relativePath == f.relativePath;
    }
    assert FileKeys(files) <= FileKeys(rest);
    FewFileKeys(rest);
    SmallerSet(FileKeys(files), FileKeys(rest));
  }

  lemma RepeatedDirKeys(dirs: seq<string>, i: nat, j: nat)
    requires i < j < |dirs| && dirs[i] == dirs[j]
    ensures |DirKeys(dirs)| < |dirs|
  {
    var rest := dirs[..j] + dirs[j + 1..];
    forall d | d in dirs
      ensures d in rest
    {
      var k :| 0 <= k < |dirs| && dirs[k] == d;
      assert rest[if k < j then k else if k == j then i else k - 1] == d;
    }
    assert DirKeys(dirs) <= DirKeys(rest);
    FewDirKeys(rest);
    SmallerSet(DirKeys(dirs), DirKeys(rest));
  }

  lemma SmallerSet(a: set<string>, b: set<string>)
    requires a <= b
    ensures |a| <= |b|
  {
    assert b == a + (b - a);
  }

  /** A repetition or a collision makes the keys fewer than what was found. */
  lemma RepetitionShrinks(all: Collected)
    requires !NoRepeats(all) || Collides(all)
    ensures |Keys(all)| < |all.files| + |all.emptyDirs|
  {
    var fk, dk := FileKeys(all.files), DirKeys(all.emptyDirs);
    FewFileKeys(all.files);
    FewDirKeys(all.emptyDirs);
    assert |fk + dk| == |fk| + |dk| - |fk * dk|;
    if Collides(all) {
      var f, d :| f in all.files && d in all.emptyDirs && f.relativePath == DirKey(d);
      assert f.relativePath in fk * dk;
    } else if i, j :| 0 <= i < j < |all.files| && all.files[i].relativePath == all.files[j].relativePath {
      RepeatedFileKeys(all.files, i, j);
    } else {
      var i, j :| 0 <= i < j < |all.emptyDirs| && all.emptyDirs[i] == all.emptyDirs[j];
      RepeatedDirKeys(all.emptyDirs, i, j);
    }
  }

  ghost predicate TakenFrom(c: Collected, all: Collected) {
    && (forall f :: f in c.files ==> f in all.files)
    && (forall d :: d in c.emptyDirs ==> d in all.emptyDirs)
  }

  lemma {:induction false} AddFilesFrom(c: Collected, files: seq<LocalFile>)
    ensures AddFiles(c, files).emptyDirs == c.emptyDirs
    ensures forall f :: f in AddFiles(c, files).files ==> f in c.files || f in files
  {
    if files != [] {
      AddFilesFrom(c, files[..|files| - 1]);
    }
  }

  lemma {:induction false} AddDirsFrom(c: Collected, dirs: seq<string>)
    ensures AddDirs(c, dirs).files == c.files
    ensures forall d :: d in AddDirs(c, dirs).emptyDirs ==> d in c.emptyDirs || d in dirs
  {
    if dirs != [] {
      AddDirsFrom(c, dirs[..|dirs| - 1]);
    }
  }

  /** What holds of the collection after some of the items, `part` being all that was found in them. */
  ghost predicate CollectedSoFar(c: Collected, part: Collected, all: Collected) {
    && OneEach(c) && Keys(c) == Keys(part) && TakenFrom(c, part)
    && (NoRepeats(all) && !Collides(all) ==> c == part)
  }

  lemma AbsorbOne(c: Collected, part: Collected, found: Collected, all: Collected)
    requires CollectedSoFar(c, part, all)
    requires Plus(part, found).files <= all.files && Plus(part, found).emptyDirs <= all.emptyDirs
    ensures CollectedSoFar(AddDirs(AddFiles(c, found.files), found.emptyDirs), Plus(part, found), all)
  {
    KeysOfPlus(part, found);
    AddFilesOnce(c, found.files);
    AddDirsOnce(AddFiles(c, found.files), found.emptyDirs);
    AddFilesFrom(c, found.files);
    AddDirsFrom(AddFiles(c, found.files), found.emptyDirs);
    if NoRepeats(all) && !Collides(all) {
      AddFilesFree(c, found.files, all);
      AddDirsFree(AddFiles(c, found.files), found.emptyDirs, all);
    }
  }

  lemma AbsorbItem(items: seq<Item>, i: nat, c: Collected)
    requires i < |items| && CollectedSoFar(c, FoundAll(items[..i]), FoundAll(items))
    ensures var found := FoundInItem(items[i]);
            CollectedSoFar(AddDirs(AddFiles(c, found.files), found.emptyDirs),
                           FoundAll(items[..i + 1]), FoundAll(items))
  {
    NextItem(items, i);
    FirstItems(items, i + 1);
    AbsorbOne(c, FoundAll(items[..i]), FoundInItem(items[i]), FoundAll(items));
  }

  lemma NothingYet(all: Collected)
    ensures CollectedSoFar(Collected([], []), FoundAll([]), all)
  {
    NoKeys();
  }

  /** The collection after all items. */
  ghost predicate CollectedAll(c: Collected, all: Collected) {
    && Keys(c) == Keys(all) && |c.files| + |c.emptyDirs| == |Keys(c)| && TakenFrom(c, all)
    && (c == all <==> NoRepeats(all) && !Collides(all))
  }

  lemma AllAbsorbed(c: Collected, all: Collected)
    requires CollectedSoFar(c, all, all)
    ensures CollectedAll(c, all)
  {
    if !NoRepeats(all) || Collides(all) {
      RepetitionShrinks(all);
      assert c != all;
    }
  }

  // ----- which of two findings with one key is kept -----

  datatype Finding = FileFound(file: LocalFile) | DirFound(dir: string)

  function Key(x: Finding): string {
    match x
    case FileFound(file) => file.relativePath
    case DirFound(dir) => DirKey(dir)
  }

  function FilesFound(files: seq<LocalFile>): seq<Finding> {
    seq(|files|, i requires 0 <= i < |files| => FileFound(files[i]))
  }

  function DirsFound(dirs: seq<string>): seq<Finding> {
    seq(|dirs|, i requires 0 <= i < |dirs| => DirFound(dirs[i]))
  }

  /** What one item yields, in the order of the two loops: its files, then its empty directories. */
  function InOrder(c: Collected): seq<Finding> { FilesFound(c.files) + DirsFound(c.emptyDirs) }

  /** What all items yield, in the order it is met. */
  function Findings(items: seq<Item>): seq<Finding> {
    if items == [] then []
    else Findings(items[..|items| - 1]) + InOrder(FoundInItem(items[|items| - 1]))
  }

  /** Nothing before it has its key. */
  predicate FirstOfKey(xs: seq<Finding>, i: nat)
    requires i < |xs|
  {
    forall j :: 0 <= j < i ==> Key(xs[j]) != Key(xs[i])
  }

  function With(c: Collected, x: Finding): Collected {
    match x
    case FileFound(file) => c.(files := c.files + [file])
    case DirFound(dir) => c.(emptyDirs := c.emptyDirs + [dir])
  }

  /** The findings that are the first of their key, files and directories apart. */
  function Firsts(xs: seq<Finding>): Collected {
    if xs == [] then Collected([], [])
    else
      var n := |xs| - 1;
      if FirstOfKey(xs, n) then With(Firsts(xs[..n]), xs[n]) else Firsts(xs[..n])
  }

  /** A finding is kept exactly when some occurrence of it is the first of its key. */
  ghost predicate Kept(xs: seq<Finding>, x: Finding) {
    exists i :: 0 <= i < |xs| && xs[i] == x && FirstOfKey(xs, i)
  }

  lemma KeptAppend(xs: seq<Finding>, x: Finding, y: Finding)
    ensures Kept(xs + [x], y) <==> Kept(xs, y) || (y == x && FirstOfKey(xs + [x], |xs|))
  {
    var ys := xs + [x];
    forall i | 0 <= i < |xs|
      ensures FirstOfKey(ys, i) <==> FirstOfKey(xs, i)
    {
      assert forall j :: 0 <= j < i ==> ys[j] == xs[j];
    }
    if Kept(xs, y) {
      var i :| 0 <= i < |xs| && xs[i] == y && FirstOfKey(xs, i);
      assert ys[i] == y && FirstOfKey(ys, i);
    }
    assert ys[|xs|] == x;
  }

  lemma {:induction false} KeptExactly(xs: seq<Finding>)
    ensures forall f :: f in Firsts(xs).files <==> Kept(xs, FileFound(f))
    ensures forall d :: d in Firsts(xs).emptyDirs <==> Kept(xs, DirFound(d))
  {
    if xs != [] {
      var n := |xs| - 1;
      KeptExactly(xs[..n]);
      assert xs == xs[..n] + [xs[n]];
      forall y
        ensures Kept(xs, y) <==> Kept(xs[..n], y) || (y == xs[n] && FirstOfKey(xs, n))
      {
        KeptAppend(xs[..n], xs[n], y);
      }
    }
  }

  function KeysOf(xs: seq<Finding>): set<string> { set x | x in xs :: Key(x) }

  lemma FirstsAppend(xs: seq<Finding>, x: Finding)
    ensures KeysOf(xs + [x]) == KeysOf(xs) + {Key(x)}
    ensures Firsts(xs + [x]) == if Key(x) in KeysOf(xs) then Firsts(xs) else With(Firsts(xs), x)
  {
    var ys := xs + [x];
    assert ys[..|ys| - 1] == xs;
    assert forall y :: y in ys <==> y in xs || y == x;
    assert forall j :: 0 <= j < |xs| ==> ys[j] == xs[j];
    assert FirstOfKey(ys, |xs|) <==> Key(x) !in KeysOf(xs);
  }

  lemma WithKeys(c: Collected, x: Finding)
    ensures Keys(With(c, x)) == Keys(c) + {Key(x)}
  {
    match x
    case FileFound(file) => FileKeysAppend(c.files, file);
    case DirFound(dir) => DirKeysAppend(c.emptyDirs, dir);
  }

  lemma {:induction false} FirstsKeys(xs: seq<Finding>)
    ensures Keys(Firsts(xs)) == KeysOf(xs)
  {
    if xs == [] {
      NoKeys();
    } else {
      var n := |xs| - 1;
      assert xs == xs[..n] + [xs[n]];
      FirstsKeys(xs[..n]);
      FirstsAppend(xs[..n], xs[n]);
      WithKeys(Firsts(xs[..n]), xs[n]);
    }
  }

  function AddFinding(c: Collected, x: Finding): Collected {
    match x
    case FileFound(file) => AddFile(c, file)
    case DirFound(dir) => AddDir(c, dir)
  }

  /** The loops decide by what they kept; that comes to the same as looking at all that came before. */
  lemma FirstsNext(xs: seq<Finding>, x: Finding)
    ensures Firsts(xs + [x]) == AddFinding(Firsts(xs), x)
  {
    FirstsKeys(xs);
    FirstsAppend(xs, x);
  }

  lemma FilesFoundAppend(xs: seq<Finding>, files: seq<LocalFile>, f: LocalFile)
    ensures xs + FilesFound(files + [f]) == xs + FilesFound(files) + [FileFound(f)]
  {
  }

  lemma DirsFoundAppend(xs: seq<Finding>, dirs: seq<string>, d: string)
    ensures xs + DirsFound(dirs + [d]) == xs + DirsFound(dirs) + [DirFound(d)]
  {
  }

  lemma {:induction false} FirstsFiles(xs: seq<Finding>, files: seq<LocalFile>)
    ensures AddFiles(Firsts(xs), files) == Firsts(xs + FilesFound(files))
  {
    if files == [] {
      assert xs + FilesFound(files) == xs;
    } else {
      var n := |files| - 1;
      var front, f := files[..n], files[n];
      assert files == front + [f];
      FirstsFiles(xs, front);
      FilesFoundAppend(xs, front, f);
      FirstsNext(xs + FilesFound(front), FileFound(f));
    }
  }

  lemma {:induction false} FirstsDirs(xs: seq<Finding>, dirs: seq<string>)
    ensures AddDirs(Firsts(xs), dirs) == Firsts(xs + DirsFound(dirs))
  {
    if dirs == [] {
      assert xs + DirsFound(dirs) == xs;
    } else {
      var n := |dirs| - 1;
      var front, d := dirs[..n], dirs[n];
      assert dirs == front + [d];
      FirstsDirs(xs, front);
      DirsFoundAppend(xs, front, d);
      FirstsNext(xs + DirsFound(front), DirFound(d));
    }
  }

  lemma NextFindings(items: seq<Item>, i: nat)
    requires i < |items|
    ensures var found := FoundInItem(items[i]);
            Findings(items[..i + 1]) == Findings(items[..i]) + FilesFound(found.files) + DirsFound(found.emptyDirs)
  {
    assert items[..i + 1][..i] == items[..i];
  }

  lemma FirstsItem(items: seq<Item>, i: nat)
    requires i < |items|
    ensures var found := FoundInItem(items[i]);
            AddDirs(AddFiles(Firsts(Findings(items[..i])), found.files), found.emptyDirs)
            == Firsts(Findings(items[..i + 1]))
  {
    var found, xs := FoundInItem(items[i]), Findings(items[..i]);
    NextFindings(items, i);
    FirstsFiles(xs, found.files);
    FirstsDirs(xs + FilesFound(found.files), found.emptyDirs);
  }

  /** Of two findings with one key that is found nowhere else, the one met second is lost: a file
      named "dir:x" and an empty directory "x" cost each other in either order. */
  lemma SecondIsLost(xs: seq<Finding>, i: nat, j: nat)
    requires i < j < |xs| && Key(xs[i]) == Key(xs[j]) && xs[i] != xs[j]
    requires forall k :: 0 <= k < |xs| && Key(xs[k]) == Key(xs[i]) ==> k == i || k == j
    ensures Kept(xs, xs[i]) && !Kept(xs, xs[j])
  {
    assert FirstOfKey(xs, i) && !FirstOfKey(xs, j);
  }

  method CollectFromFileList(fileList: seq<LocalFile>) returns (c: Collected)
    ensures c == Collected(fileList, [])
  {
    var files: seq<LocalFile> := [];
    for i := 0 to |fileList|
      invariant files == fileList[..i]
    {
      files := files + [fileList[i]];
    }
    assert fileList[..|fileList|] == fileList;
    return Collected(files, []);
  }

  /** One item of the loop. */
  method AddItem(seen: set<string>, c: Collected, item: Item) returns (seen': set<string>, c': Collected)
    requires seen == Keys(c) && ValidItem(item)
    ensures var found := FoundInItem(item); c' == AddDirs(AddFiles(c, found.files), found.emptyDirs)
    ensures seen' == Keys(c')
  {
    match item {
      case Dropped(entry) =>
        var found := CollectFromEntry(entry);
        seen', c' := Absorb(seen, c, found);
      case PlainFile(file) =>
        seen', c' := Absorb(seen, c, Collected([file], []));
      case Nothing =>
        seen', c' := seen, c;
    }
  }

  /** `collectFromDataTransfer`: every key found in the items is collected exactly once, from what
      was found; and all that was found is collected exactly when no path is found twice and no
      file's path spells "dir:" followed by the path of an empty directory. What is collected is,
      in order, the first finding of every key. Without items the plain file list is taken as it
      is. */
  method CollectFromDataTransfer(items: seq<Item>, fileList: seq<LocalFile>) returns (c: Collected)
    requires forall item :: item in items ==> ValidItem(item)
    ensures items == [] ==> c == Collected(fileList, [])
    ensures items != [] ==> CollectedAll(c, FoundAll(items)) && c == Firsts(Findings(items))
  {
    if |items| == 0 {
      c := CollectFromFileList(fileList);
      return;
    }
    c := Collected([], []);
    var seen: set<string> := {};
    NoKeys();
    NothingYet(FoundAll(items));
    assert items[..0] == [];
    for i := 0 to |items|
      invariant seen == Keys(c)
      invariant CollectedSoFar(c, FoundAll(items[..i]), FoundAll(items))
      invariant c == Firsts(Findings(items[..i]))
    {
      AbsorbItem(items, i, c);
      FirstsItem(items, i);
      assert items[i] in items;
      seen, c := AddItem(seen, c, items[i]);
    }
    assert items[..|items|] == items;
    AllAbsorbed(c, FoundAll(items));
  }

  lemma PairErased(n: string, m: string, data: Data)
    ensures EraseAll([FileEntry(n, data), DirEntry(m, Exhausted)]) == [File(n, data), Dir(m, [])]
  {
    var f, d := FileEntry(n, data), DirEntry(m, Exhausted);
    var pair := [f, d];
    assert pair[1..] == [d] && [d][1..] == [];
    assert EraseAll([d]) == [Erase(d)] + EraseAll([d][1..]);
    assert EraseAll(pair) == [Erase(f)] + EraseAll(pair[1..]);
  }

  lemma PairWellFormed(n: string, m: string, data: Data)
    requires IsName(n) && IsName(m) && n != m
    ensures WellFormedAll([File(n, data), Dir(m, [])])
  {
    var f, d := File(n, data), Dir(m, []);
    assert WellFormedAll([]) && WellFormed(d) && WellFormed(f);
    assert [d][1..] == [];
    assert WellFormedAll([d]);
    assert [f, d][1..] == [d];
  }

  lemma PairListed(n: string, m: string, data: Data)
    ensures var c := Listing([File(n, data), Dir(m, [])], []);
            LocalFile(n, data) in c.files && m in c.emptyDirs
  {
    var f, d := File(n, data), Dir(m, []);
    assert [f, d] == [f] + [d];
    FilesAllAppend([f], [d], []);
    assert FilesAll([f], []) == Files(f, []) && EmptyDirsAll([d], []) == EmptyDirs(d, []);
    assert [] + [n] == [n] && [] + [m] == [m];
    NamedHas(FilesAll([f] + [d], []), At([n], data));
    NamedDirsHas(EmptyDirsAll([f] + [d], []), [m]);
  }

  /** Such a collision exists: a file named "dir:a" dropped beside an empty directory "a". */
  lemma CollisionIsPossible(data: Data) returns (items: seq<Entry>)
    ensures (forall e :: e in items ==> ValidNames(e)) && WellFormedAll(EraseAll(items))
    ensures Collides(Listing(EraseAll(items), []))
  {
    var n, m := DirKey("a"), "a";
    items := [FileEntry(n, data), DirEntry(m, Exhausted)];
    PairErased(n, m, data);
    PairWellFormed(n, m, data);
    PairListed(n, m, data);
  }

  lemma FoundSingly(n: string, m: string, data: Data)
    ensures FoundInItem(Dropped(FileEntry(n, data))) == Collected([LocalFile(n, data)], [])
    ensures FoundInItem(Dropped(DirEntry(m, Exhausted))) == Collected([], [m])
  {
    assert [] + [n] == [n] && [] + [m] == [m];
    assert Erase(DirEntry(m, Exhausted)) == Dir(m, []);
    assert Files(File(n, data), []) == [At([n], data)] && Files(Dir(m, []), []) == [];
    assert EmptyDirs(File(n, data), []) == [] && EmptyDirs(Dir(m, []), []) == [[m]];
    assert Join([n]) == n && Join([m]) == m;
    assert NamedDirs([[m]]) == [m] && Named([At([n], data)]) == [LocalFile(n, data)];
    assert NamedDirs([]) == [] && Named([]) == [];
  }

  lemma FindingsOfTwo(a: Item, b: Item)
    ensures Findings([a, b]) == InOrder(FoundInItem(a)) + InOrder(FoundInItem(b))
  {
    assert [a, b][..1] == [a] && [a][..0] == [];
    assert Findings([a]) == Findings([]) + InOrder(FoundInItem(a));
  }

  /** Dropped first, the file is collected and the directory is not; dropped second, the file is
      never uploaded. */
  lemma CollisionCostsTheSecond(data: Data)
    ensures var f, d := Dropped(FileEntry(DirKey("a"), data)), Dropped(DirEntry("a", Exhausted));
            && Firsts(Findings([f, d])) == Collected([LocalFile(DirKey("a"), data)], [])
            && Firsts(Findings([d, f])) == Collected([], ["a"])
  {
    var f, d := Dropped(FileEntry(DirKey("a"), data)), Dropped(DirEntry("a", Exhausted));
    var x, y := FileFound(LocalFile(DirKey("a"), data)), DirFound("a");
    FoundSingly(DirKey("a"), "a", data);
    FindingsOfTwo(f, d);
    FindingsOfTwo(d, f);
    assert Findings([f, d]) == [] + [x] + [y] && Findings([d, f]) == [] + [y] + [x];
    FirstsAppend([], x);
    FirstsAppend([], y);
    FirstsAppend([] + [x], y);
    FirstsAppend([] + [y], x);
  }

  lemma NamedHas(fs: seq<At>, f: At)
    requires f in fs
    ensures LocalFile(Join(f.path), f.data) in Named(fs)
  {
    var i :| 0 <= i < |fs| && fs[i] == f;
    assert Named(fs)[i] == LocalFile(Join(f.path), f.data);
  }

  lemma NamedDirsHas(ds: seq<Path>, d: Path)
    requires d in ds
    ensures Join(d) in NamedDirs(ds)
  {
    var i :| 0 <= i < |ds| && ds[i] == d;
    assert NamedDirs(ds)[i] == Join(d);
  }
}
