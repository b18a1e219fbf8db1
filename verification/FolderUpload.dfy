/** Re-creating a collected folder on the remote side: the requests of `enqueueTree` and of the
    uploads, in any order the scheduler may run them. */
module FolderUpload {
  import opened Wrappers
  import opened RemotePaths
  import opened RemoteFs
  import LF = LocalFiles

  /** One request: `mkdir` of an empty directory, then for every upload first `EnsureRemoteDir`
      and later `Create` with the file's content. */
  datatype Op = Mkdir(path: string) | Ensure(path: string) | Put(path: string, data: string)

  function EnsureRemoteDir(fs: Fs, remotePath: string): Option<Fs> {
    var dir := DirPart(remotePath);
    if dir == "" then Some(fs)
    else if Segments(dir) in fs then Some(fs)
    else MkdirAll(fs, Segments(dir))
  }

  function Exec(fs: Fs, op: Op): Option<Fs> {
    match op
    case Mkdir(path) => MkdirAll(fs, Segments(path))
    case Ensure(path) => EnsureRemoteDir(fs, path)
    case Put(path, data) => Create(fs, Segments(path), data)
  }

  function ExecAll(fs: Fs, ops: seq<Op>): Option<Fs>
    decreases |ops|
  {
    if ops == [] then Some(fs)
    else
      var next := Exec(fs, ops[0]);
      if next.None? then None else ExecAll(next.value, ops[1..])
  }

  /** Where the listed files and directories are to go. */
  datatype Plan = Plan(files: map<Path, string>, dirs: set<Path>)

  function Nodes(plan: Plan): Fs {
    (map q | q in plan.dirs :: DirNode) + (map q | q in plan.files :: FileNode(plan.files[q]))
  }

  /** Files and directories do not overlap, and everything planned has its ancestors planned. */
  ghost predicate Proper(plan: Plan) {
    && plan.files.Keys !! plan.dirs && [] !in plan.files
    && (forall p, q :: p in plan.files && q < p ==> q in plan.dirs)
    && (forall p, q :: p in plan.dirs && q < p ==> q in plan.dirs)
  }

  /** Nothing of the wrong kind stands in the way. */
  ghost predicate Compatible(fs: Fs, plan: Plan) {
    && (forall q :: q in plan.dirs && q in fs ==> fs[q].DirNode?)
    && (forall q :: q in plan.files && q in fs ==> fs[q].FileNode?)
  }

  /** The request serves the plan. */
  ghost predicate Serves(op: Op, plan: Plan) {
    var p := Segments(op.path);
    match op
    case Mkdir(_) => p in plan.dirs
    case Ensure(path) => p in plan.files && LastSegment(path) != ""
    case Put(_, data) => p in plan.files && data == plan.files[p]
  }

  /** Every request serves the plan, every file is put, after its directory was ensured, and every
      planned directory lies above a file or is made. */
  ghost predicate Schedule(ops: seq<Op>, plan: Plan) {
    && (forall i :: 0 <= i < |ops| ==> Serves(ops[i], plan))
    && (forall i :: 0 <= i < |ops| && ops[i].Put? ==> exists j :: 0 <= j < i && ops[j] == Ensure(ops[i].path))
    && (forall p :: p in plan.files ==> exists i :: 0 <= i < |ops| && ops[i].Put? && Segments(ops[i].path) == p)
    && (forall q :: q in plan.dirs ==>
                      || (exists p :: p in plan.files && q < p)
                      || (exists i :: 0 <= i < |ops| && ops[i].Mkdir? && q <= Segments(ops[i].path)))
  }

  /** Between the old file system and the planned one. */
  ghost predicate Between(fs: Fs, cur: Fs, plan: Plan) {
    && Closed(cur)
    && fs.Keys <= cur.Keys && cur.Keys <= fs.Keys + plan.files.Keys + plan.dirs
    && forall q :: q in cur ==>
                     || (q in fs && cur[q] == fs[q])
                     || (q in plan.files && cur[q] == FileNode(plan.files[q]))
                     || (q in plan.dirs && cur[q] == DirNode)
  }

  lemma MkdirAllBetween(fs: Fs, cur: Fs, plan: Plan, p: Path)
    requires Between(fs, cur, plan) && Proper(plan) && Compatible(fs, plan)
    requires forall q :: q <= p ==> q in plan.dirs
    ensures MkdirAll(cur, p).Some?
    ensures var next := MkdirAll(cur, p).value;
            && Between(fs, next, plan) && cur.Keys <= next.Keys
            && (forall q :: q <= p ==> IsDir(next, q))
            && (forall q :: q in cur ==> next[q] == cur[q])
  {
    forall q | q in Prefixes(p)
      ensures q in plan.dirs && !IsFile(cur, q)
    {
      PrefixesAre(p, q);
    }
    MkdirAllEffect(cur, p);
  }

  /** What a request leaves behind. */
  ghost predicate Done(cur: Fs, op: Op) {
    var p := Segments(op.path);
    match op
    case Mkdir(_) => forall q :: q <= p ==> IsDir(cur, q)
    case Ensure(_) => forall q :: q < p ==> IsDir(cur, q)
    case Put(_, data) => p in cur && cur[p] == FileNode(data)
  }

  /** Nothing disappears or changes kind, and what changes becomes what was planned. */
  ghost predicate Grows(cur: Fs, next: Fs, plan: Plan) {
    forall q :: q in cur ==>
                  && q in next && next[q].DirNode? == cur[q].DirNode?
                  && (next[q] == cur[q] || (q in plan.files && next[q] == FileNode(plan.files[q])))
  }

  lemma DoneStays(cur: Fs, next: Fs, op: Op, plan: Plan)
    requires Done(cur, op) && Grows(cur, next, plan) && Serves(op, plan)
    ensures Done(next, op)
  {
    forall q | IsDir(cur, q)
      ensures IsDir(next, q)
    {
    }
    var p := Segments(op.path);
    if !op.Put? {
      forall q | q < p || (op.Mkdir? && q == p)
        ensures IsDir(next, q)
      {
        assert IsDir(cur, q);
      }
    }
  }

  lemma PlannedDirIsDir(fs: Fs, cur: Fs, plan: Plan, q: Path)
    requires Between(fs, cur, plan) && Proper(plan) && Compatible(fs, plan) && q in plan.dirs && q in cur
    ensures IsDir(cur, q)
  {
  }

  lemma EnsureBetween(fs: Fs, cur: Fs, plan: Plan, path: string)
    requires Between(fs, cur, plan) && Proper(plan) && Compatible(fs, plan) && Serves(Ensure(path), plan)
    ensures EnsureRemoteDir(cur, path).Some?
    ensures var next := EnsureRemoteDir(cur, path).value;
            Between(fs, next, plan) && Grows(cur, next, plan) && Done(next, Ensure(path))
  {
    var p := Segments(path);
    var dir := Segments(DirPart(path));
    DirPartSegments(path);
    assert dir == Parent(p) && dir in plan.dirs;
    if DirPart(path) == "" || dir in cur {
      PlannedDirIsDir(fs, cur, plan, dir);
      forall q | q < p
        ensures IsDir(cur, q)
      {
        if q != dir { AncestorsAreDirs(cur, dir, q); }
      }
    } else {
      MkdirAllBetween(fs, cur, plan, dir);
      forall q | q < p
        ensures IsDir(EnsureRemoteDir(cur, path).value, q)
      {
        assert q <= dir;
      }
    }
  }

  lemma PutBetween(fs: Fs, cur: Fs, plan: Plan, path: string, data: string)
    requires Between(fs, cur, plan) && Proper(plan) && Compatible(fs, plan) && Serves(Put(path, data), plan)
    requires IsDir(cur, Parent(Segments(path)))
    ensures Exec(cur, Put(path, data)).Some?
    ensures var next := Exec(cur, Put(path, data)).value;
            Between(fs, next, plan) && Grows(cur, next, plan) && Done(next, Put(path, data))
  {
    var p := Segments(path);
    assert !IsDir(cur, p);
    CreateEffect(cur, p, data);
  }

  lemma MkdirBetween(fs: Fs, cur: Fs, plan: Plan, path: string)
    requires Between(fs, cur, plan) && Proper(plan) && Compatible(fs, plan) && Serves(Mkdir(path), plan)
    ensures Exec(cur, Mkdir(path)).Some?
    ensures var next := Exec(cur, Mkdir(path)).value;
            Between(fs, next, plan) && Grows(cur, next, plan) && Done(next, Mkdir(path))
  {
    var p := Segments(path);
    forall q | q <= p
      ensures q in plan.dirs
    {
      assert q == p || q < p;
    }
    MkdirAllBetween(fs, cur, plan, p);
  }

  lemma {:induction false} ExecAllSnoc(fs: Fs, ops: seq<Op>, op: Op)
    ensures var before := ExecAll(fs, ops);
            ExecAll(fs, ops + [op]) == if before.None? then None else Exec(before.value, op)
    decreases |ops|
  {
    if ops == [] {
      assert ([op])[1..] == [];
    } else {
      assert (ops + [op])[1..] == ops[1..] + [op];
      var next := Exec(fs, ops[0]);
      if next.Some? { ExecAllSnoc(next.value, ops[1..], op); }
    }
  }

  ghost predicate DoneUpTo(cur: Fs, ops: seq<Op>, i: nat)
    requires i <= |ops|
  {
    forall j :: 0 <= j < i ==> Done(cur, ops[j])
  }

  lemma ServedNext(fs: Fs, cur: Fs, ops: seq<Op>, i: nat, plan: Plan)
    requires Between(fs, cur, plan) && Proper(plan) && Compatible(fs, plan) && Schedule(ops, plan)
    requires i < |ops| && DoneUpTo(cur, ops, i)
    ensures Exec(cur, ops[i]).Some?
    ensures var next := Exec(cur, ops[i]).value;
            Between(fs, next, plan) && Grows(cur, next, plan) && Done(next, ops[i])
  {
    assert Serves(ops[i], plan);
    match ops[i] {
      case Mkdir(path) => MkdirBetween(fs, cur, plan, path);
      case Ensure(path) => EnsureBetween(fs, cur, plan, path);
      case Put(path, data) =>
        var j :| 0 <= j < i && ops[j] == Ensure(path);
        assert Done(cur, ops[j]);
        assert Parent(Segments(path)) < Segments(path);
        PutBetween(fs, cur, plan, path, data);
    }
  }

  lemma StillDone(cur: Fs, next: Fs, ops: seq<Op>, i: nat, plan: Plan)
    requires Grows(cur, next, plan) && i < |ops| && Done(next, ops[i])
    requires forall j :: 0 <= j < i ==> Serves(ops[j], plan)
    requires DoneUpTo(cur, ops, i)
    ensures DoneUpTo(next, ops, i + 1)
  {
    forall j | 0 <= j < i
      ensures Done(next, ops[j])
    {
      assert Serves(ops[j], plan);
      DoneStays(cur, next, ops[j], plan);
    }
  }

  lemma OneMore(fs: Fs, before: Fs, ops: seq<Op>, i: nat, plan: Plan) returns (cur: Fs)
    requires Between(fs, before, plan) && Proper(plan) && Compatible(fs, plan) && Schedule(ops, plan)
    requires i < |ops| && DoneUpTo(before, ops, i)
    ensures Exec(before, ops[i]) == Some(cur) && Between(fs, cur, plan)
    ensures DoneUpTo(cur, ops, i + 1)
  {
    ServedNext(fs, before, ops, i, plan);
    cur := Exec(before, ops[i]).value;
    assert forall j :: 0 <= j < i ==> Serves(ops[j], plan);
    StillDone(before, cur, ops, i, plan);
  }

  lemma ExecOneMore(fs: Fs, before: Fs, ops: seq<Op>, i: nat, cur: Fs)
    requires i < |ops| && ExecAll(fs, ops[..i]) == Some(before) && Exec(before, ops[i]) == Some(cur)
    ensures ExecAll(fs, ops[..i + 1]) == Some(cur)
  {
    ExecAllSnoc(fs, ops[..i], ops[i]);
    assert ops[..i + 1] == ops[..i] + [ops[i]];
  }

  lemma {:induction false} AfterPrefix(fs: Fs, ops: seq<Op>, i: nat, plan: Plan) returns (cur: Fs)
    requires Closed(fs) && Proper(plan) && Compatible(fs, plan) && Schedule(ops, plan) && i <= |ops|
    ensures ExecAll(fs, ops[..i]) == Some(cur) && Between(fs, cur, plan)
    ensures DoneUpTo(cur, ops, i)
  {
    if i == 0 {
      cur := fs;
      assert ops[..i] == [];
    } else {
      var k := i - 1;
      var before := AfterPrefix(fs, ops, k, plan);
      cur := OneMore(fs, before, ops, k, plan);
      ExecOneMore(fs, before, ops, k, cur);
    }
  }

  /** Every request of a schedule succeeds when nothing of the wrong kind is in the way, and the
      result is the old file system with the plan laid over it, whatever the order. */
  lemma ScheduleBuildsPlan(fs: Fs, ops: seq<Op>, plan: Plan)
    requires Closed(fs) && Proper(plan) && Compatible(fs, plan) && Schedule(ops, plan)
    ensures ExecAll(fs, ops) == Some(fs + Nodes(plan))
  {
    var cur := AfterPrefix(fs, ops, |ops|, plan);
    assert ops[..|ops|] == ops;
    AllDoneIsPlan(fs, cur, ops, plan);
  }

  lemma AllFilesPlaced(cur: Fs, ops: seq<Op>, plan: Plan, p: Path)
    requires Schedule(ops, plan) && p in plan.files
    requires DoneUpTo(cur, ops, |ops|)
    ensures p in cur && cur[p] == FileNode(plan.files[p])
  {
    var i :| 0 <= i < |ops| && ops[i].Put? && Segments(ops[i].path) == p;
    assert Done(cur, ops[i]) && Serves(ops[i], plan);
  }

  ghost predicate KindReached(next: Fs, op: Op) {
    var p := Segments(op.path);
    && (op.Mkdir? ==> forall q :: q <= p ==> IsDir(next, q))
    && (op.Put? ==> IsFile(next, p))
  }

  lemma PlannedFileReached(final: Fs, ops: seq<Op>, plan: Plan, p: Path)
    requires Schedule(ops, plan) && p in plan.files
    requires forall i :: 0 <= i < |ops| ==> KindReached(final, ops[i])
    ensures IsFile(final, p)
  {
    var i :| 0 <= i < |ops| && ops[i].Put? && Segments(ops[i].path) == p;
    assert KindReached(final, ops[i]);
  }

  lemma PlannedDirReached(final: Fs, ops: seq<Op>, plan: Plan, q: Path)
    requires Closed(final) && Schedule(ops, plan) && q in plan.dirs
    requires forall i :: 0 <= i < |ops| ==> KindReached(final, ops[i])
    ensures IsDir(final, q)
  {
    if p :| p in plan.files && q < p {
      PlannedFileReached(final, ops, plan, p);
      AncestorsAreDirs(final, p, q);
    } else {
      var i :| 0 <= i < |ops| && ops[i].Mkdir? && q <= Segments(ops[i].path);
      assert KindReached(final, ops[i]);
    }
  }

  lemma NodesAre(plan: Plan)
    requires Proper(plan)
    ensures Nodes(plan).Keys == plan.files.Keys + plan.dirs
    ensures forall p :: p in plan.files ==> Nodes(plan)[p] == FileNode(plan.files[p])
    ensures forall q :: q in plan.dirs ==> Nodes(plan)[q] == DirNode
  {
  }

  lemma AllDirsPlaced(cur: Fs, ops: seq<Op>, plan: Plan, q: Path)
    requires Closed(cur) && Schedule(ops, plan) && q in plan.dirs
    requires DoneUpTo(cur, ops, |ops|)
    ensures IsDir(cur, q)
  {
    forall i | 0 <= i < |ops|
      ensures KindReached(cur, ops[i])
    {
      assert Done(cur, ops[i]);
    }
    PlannedDirReached(cur, ops, plan, q);
  }

  lemma AllDoneIsPlan(fs: Fs, cur: Fs, ops: seq<Op>, plan: Plan)
    requires Between(fs, cur, plan) && Proper(plan) && Compatible(fs, plan) && Schedule(ops, plan)
    requires DoneUpTo(cur, ops, |ops|)
    ensures cur == fs + Nodes(plan)
  {
    NodesAre(plan);
    forall p | p in plan.files
      ensures p in cur && cur[p] == FileNode(plan.files[p])
    {
      AllFilesPlaced(cur, ops, plan, p);
    }
    forall q | q in plan.dirs
      ensures q in cur && cur[q] == DirNode
    {
      AllDirsPlaced(cur, ops, plan, q);
    }
    SameMap(fs, cur, Nodes(plan));
  }

  lemma SameMap(fs: Fs, cur: Fs, nodes: Fs)
    requires fs.Keys <= cur.Keys && cur.Keys <= fs.Keys + nodes.Keys
    requires forall q :: q in nodes ==> q in cur && cur[q] == nodes[q]
    requires forall q :: q in cur && q !in nodes ==> q in fs && cur[q] == fs[q]
    ensures cur == fs + nodes
  {
  }

  // ----- the converse: success needs compatibility -----

  lemma ExecEffect(cur: Fs, op: Op)
    requires Closed(cur) && Exec(cur, op).Some?
    ensures var next := Exec(cur, op).value;
            Closed(next) && KeepsKinds(cur, next) && KindReached(next, op)
  {
    match op
    case Mkdir(path) => MkdirAllEffect(cur, Segments(path));
    case Ensure(path) =>
      var dir := Segments(DirPart(path));
      if DirPart(path) != "" && dir !in cur { MkdirAllEffect(cur, dir); }
    case Put(path, data) => CreateEffect(cur, Segments(path), data);
  }

  lemma {:induction false} SuccessEffect(fs: Fs, ops: seq<Op>)
    requires Closed(fs) && ExecAll(fs, ops).Some?
    ensures var final := ExecAll(fs, ops).value;
            && Closed(final) && KeepsKinds(fs, final)
            && forall i :: 0 <= i < |ops| ==> KindReached(final, ops[i])
    decreases |ops|
  {
    if ops != [] {
      var next := Exec(fs, ops[0]).value;
      ExecEffect(fs, ops[0]);
      SuccessEffect(next, ops[1..]);
      var final := ExecAll(fs, ops).value;
      forall i | 0 <= i < |ops|
        ensures KindReached(final, ops[i])
      {
        if i > 0 {
          assert ops[i] == ops[1..][i - 1];
        } else {
          KindStays(next, final, ops[0]);
        }
      }
    }
  }

  lemma KindStays(next: Fs, final: Fs, op: Op)
    requires KindReached(next, op) && KeepsKinds(next, final)
    ensures KindReached(final, op)
  {
    if op.Mkdir? {
      forall q | q <= Segments(op.path)
        ensures IsDir(final, q)
      {
        assert IsDir(next, q);
      }
    }
  }

  lemma SuccessNeedsCompatible(fs: Fs, ops: seq<Op>, plan: Plan)
    requires Closed(fs) && Schedule(ops, plan) && ExecAll(fs, ops).Some?
    ensures Compatible(fs, plan)
  {
    SuccessEffect(fs, ops);
    var final := ExecAll(fs, ops).value;
    forall q | q in fs && q in plan.dirs
      ensures fs[q].DirNode?
    {
      PlannedDirReached(final, ops, plan, q);
    }
    forall q | q in fs && q in plan.files
      ensures fs[q].FileNode?
    {
      PlannedFileReached(final, ops, plan, q);
    }
  }

  /** A schedule runs without a failing request exactly when nothing of the wrong kind stands in
      the way, and then the result is the old file system with the plan laid over it. */
  lemma ScheduleSucceedsExactly(fs: Fs, ops: seq<Op>, plan: Plan)
    requires Closed(fs) && Proper(plan) && Schedule(ops, plan)
    ensures ExecAll(fs, ops).Some? <==> Compatible(fs, plan)
    ensures ExecAll(fs, ops).Some? ==> ExecAll(fs, ops).value == fs + Nodes(plan)
  {
    if ExecAll(fs, ops).Some? { SuccessNeedsCompatible(fs, ops, plan); }
    if Compatible(fs, plan) { ScheduleBuildsPlan(fs, ops, plan); }
  }

  // ----- from the collected folder to the plan -----

  function FilesPlan(fs: seq<LF.At>, base: Path): map<Path, string> {
    if fs == [] then map[] else FilesPlan(fs[1..], base)[base + fs[0].path := fs[0].data]
  }

  function DirsPlan(fs: seq<LF.At>, ds: seq<Path>, base: Path): set<Path> {
    (set f, n | f in fs && 0 <= n < |base + f.path| :: (base + f.path)[..n])
    + (set e, n | e in ds && 0 <= n <= |base + e| :: (base + e)[..n])
  }

  function PlanOf(ts: seq<LF.Tree>, base: Path): Plan {
    Plan(FilesPlan(LF.FilesAll(ts, []), base), DirsPlan(LF.FilesAll(ts, []), LF.EmptyDirsAll(ts, []), base))
  }

  lemma {:induction false} FilesPlanIs(fs: seq<LF.At>, base: Path)
    requires LF.DistinctPaths(fs)
    ensures forall q :: q in FilesPlan(fs, base) <==> exists f :: f in fs && q == base + f.path
    ensures forall f :: f in fs ==> FilesPlan(fs, base)[base + f.path] == f.data
  {
    if fs != [] {
      FilesPlanIs(fs[1..], base);
      forall f | f in fs[1..]
        ensures base + f.path != base + fs[0].path
      {
        var i :| 0 <= i < |fs[1..]| && fs[1..][i] == f;
        assert fs[i + 1] == f;
        assert (base + f.path)[|base|..] == f.path && (base + fs[0].path)[|base|..] == fs[0].path;
      }
      assert fs == [fs[0]] + fs[1..];
    }
  }

  lemma DirsPlanIs(fs: seq<LF.At>, ds: seq<Path>, base: Path, q: Path)
    ensures q in DirsPlan(fs, ds, base) <==>
            (exists f :: f in fs && q < base + f.path) || (exists e :: e in ds && q <= base + e)
  {
    if f :| f in fs && q < base + f.path {
      assert q == (base + f.path)[..|q|];
    }
    if e :| e in ds && q <= base + e {
      assert q == (base + e)[..|q|];
    }
  }

  lemma ShiftedPrefix(base: Path, x: Path, y: Path)
    ensures base + x < base + y ==> x < y
    ensures base + x <= base + y ==> x <= y
  {
    assert (base + x)[|base|..] == x && (base + y)[|base|..] == y;
  }

  /** A planned file is no planned directory. */
  lemma FileIsNoDir(ts: seq<LF.Tree>, base: Path, f: LF.At)
    requires LF.WellFormedAll(ts) && f in LF.FilesAll(ts, [])
    ensures base + f.path !in PlanOf(ts, base).dirs && base + f.path != []
  {
    var fs, ds := LF.FilesAll(ts, []), LF.EmptyDirsAll(ts, []);
    LF.FilesAreLeaves(ts, []);
    LF.PathsExtend(ts, []);
    DirsPlanIs(fs, ds, base, base + f.path);
    forall g | g in fs
      ensures !(base + f.path < base + g.path)
    {
      ShiftedPrefix(base, f.path, g.path);
    }
    forall e | e in ds
      ensures !(base + f.path <= base + e)
    {
      ShiftedPrefix(base, f.path, e);
    }
  }

  lemma PlanIsProper(ts: seq<LF.Tree>, base: Path)
    requires LF.WellFormedAll(ts)
    ensures Proper(PlanOf(ts, base))
  {
    var fs, ds := LF.FilesAll(ts, []), LF.EmptyDirsAll(ts, []);
    var plan := PlanOf(ts, base);
    LF.ListedOnce(ts, []);
    FilesPlanIs(fs, base);
    forall p, q | p in plan.files && q < p
      ensures q in plan.dirs
    {
      DirsPlanIs(fs, ds, base, q);
    }
    forall p, q | p in plan.dirs && q < p
      ensures q in plan.dirs
    {
      DirsPlanIs(fs, ds, base, p);
      DirsPlanIs(fs, ds, base, q);
    }
    forall p | p in plan.files
      ensures p !in plan.dirs && p != []
    {
      var f :| f in fs && p == base + f.path;
      FileIsNoDir(ts, base, f);
    }
  }

  lemma Shifted(base: Path, r: Path, p: Path)
    ensures base + r < base + p <==> r < p
    ensures base + r <= base + p <==> r <= p
    ensures base + r == base + p <==> r == p
  {
    assert (base + p)[|base|..] == p && (base + r)[|base|..] == r;
  }

  /** Under the base the planned files are the local files, with their content. */
  lemma PlannedFilesAreLocal(ts: seq<LF.Tree>, base: Path, r: Path, d: string)
    requires LF.WellFormedAll(ts)
    ensures (base + r in PlanOf(ts, base).files && PlanOf(ts, base).files[base + r] == d) <==> LF.IsFileIn(ts, [], r, d)
  {
    var fs := LF.FilesAll(ts, []);
    LF.ListedOnce(ts, []);
    FilesPlanIs(fs, base);
    LF.FilesOfForest(ts, [], r, d);
    if base + r in PlanOf(ts, base).files {
      var f :| f in fs && base + r == base + f.path;
      Shifted(base, r, f.path);
    }
    if LF.IsFileIn(ts, [], r, d) {
      assert LF.At(r, d) in fs;
    }
  }

  /** Under the base the planned directories are the local directories. */
  lemma PlannedDirsAreLocal(ts: seq<LF.Tree>, base: Path, r: Path)
    requires r != []
    ensures base + r in PlanOf(ts, base).dirs <==> LF.IsDirIn(ts, [], r)
  {
    var fs, ds := LF.FilesAll(ts, []), LF.EmptyDirsAll(ts, []);
    DirsPlanIs(fs, ds, base, base + r);
    LF.DirsOfForest(ts, [], r);
    forall p: Path
      ensures base + r < base + p <==> r < p
      ensures base + r <= base + p <==> r <= p
    {
      Shifted(base, r, p);
    }
  }

  /** Beside the base nothing is planned; above it only the way to the base. */
  lemma NothingPlannedBeside(ts: seq<LF.Tree>, base: Path, q: Path)
    requires LF.WellFormedAll(ts)
    ensures q in PlanOf(ts, base).files ==> base < q
    ensures q in PlanOf(ts, base).dirs ==> q <= base || base < q
    ensures q <= base && ts != [] ==> q in PlanOf(ts, base).dirs
  {
    var fs, ds := LF.FilesAll(ts, []), LF.EmptyDirsAll(ts, []);
    LF.ListedOnce(ts, []);
    LF.PathsExtend(ts, []);
    FilesPlanIs(fs, base);
    DirsPlanIs(fs, ds, base, q);
    if ts != [] {
      LF.SomethingCollected(ts[0], []);
      if LF.Files(ts[0], []) != [] {
        assert LF.Files(ts[0], [])[0] in fs;
      } else {
        assert LF.EmptyDirs(ts[0], [])[0] in ds;
      }
    }
  }

  // ----- the whole journey -----

  /** No name in the forest holds a backslash, which `joinRemotePath` would turn into a slash. */
  predicate Clean(ts: seq<LF.Tree>) {
    && (forall f :: f in LF.FilesAll(ts, []) ==> NoBackslash(f.path))
    && (forall e :: e in LF.EmptyDirsAll(ts, []) ==> NoBackslash(e))
  }

  ghost predicate RequestFor(op: Op, base: string, c: LF.Collected) {
    match op
    case Mkdir(path) => exists d :: d in c.emptyDirs && path == JoinRemotePath(base, d)
    case Ensure(path) => exists f :: f in c.files && path == JoinRemotePath(base, f.relativePath)
    case Put(path, data) => exists f :: f in c.files && path == JoinRemotePath(base, f.relativePath) && data == f.data
  }

  /** The requests of `enqueueTree` and its uploads, in an order the browser may run them in: each
      serves something collected, every file and empty directory gets its request, and a file's
      directory is ensured before the file is created. */
  ghost predicate RequestsFor(ops: seq<Op>, base: string, c: LF.Collected) {
    && (forall i :: 0 <= i < |ops| ==> RequestFor(ops[i], base, c))
    && (forall i :: 0 <= i < |ops| && ops[i].Put? ==> exists j :: 0 <= j < i && ops[j] == Ensure(ops[i].path))
    && (forall f :: f in c.files ==> Put(JoinRemotePath(base, f.relativePath), f.data) in ops)
    && (forall d :: d in c.emptyDirs ==> Mkdir(JoinRemotePath(base, d)) in ops)
  }

  lemma {:induction false} JoinEnds(segs: Path)
    requires AllNames(segs) && segs != []
    ensures Join(segs) != "" && Join(segs)[|Join(segs)| - 1] != '/'
  {
    var last := segs[|segs| - 1];
    assert IsName(last) && last[|last| - 1] in last;
  }

  lemma {:induction false} LastSegmentKept(a: string, b: string)
    requires b != "" && b[|b| - 1] != '/'
    ensures LastSegment(a + b) != ""
  {
    assert (a + b)[|a + b| - 1] == b[|b| - 1];
  }

  lemma Lands(base: string, segs: Path)
    requires AllNames(segs) && NoBackslash(segs) && segs != []
    ensures var path := JoinRemotePath(base, Join(segs));
            Segments(path) == Segments(base) + segs && LastSegment(path) != ""
  {
    var rel := Join(segs);
    JoinLandsUnderBase(base, segs);
    JoinHasBackslash(segs);
    SegmentsOfJoin(segs);
    JoinEnds(segs);
    assert Slashed(rel) == rel && TrimLeading(rel) == rel;
    LastSegmentKept(base, rel);
    LastSegmentKept(base + "/", rel);
  }

  lemma ListedFile(ts: seq<LF.Tree>, f: LF.LocalFile) returns (at: LF.At)
    requires f in LF.Named(LF.FilesAll(ts, []))
    ensures at in LF.FilesAll(ts, []) && f == LF.LocalFile(Join(at.path), at.data)
  {
    var fs := LF.FilesAll(ts, []);
    var i :| 0 <= i < |fs| && LF.Named(fs)[i] == f;
    at := fs[i];
  }

  lemma ListedDir(ts: seq<LF.Tree>, d: string) returns (e: Path)
    requires d in LF.NamedDirs(LF.EmptyDirsAll(ts, []))
    ensures e in LF.EmptyDirsAll(ts, []) && d == Join(e)
  {
    var ds := LF.EmptyDirsAll(ts, []);
    var i :| 0 <= i < |ds| && LF.NamedDirs(ds)[i] == d;
    e := ds[i];
  }

  lemma RequestServes(ts: seq<LF.Tree>, base: string, op: Op)
    requires LF.WellFormedAll(ts) && Clean(ts) && RequestFor(op, base, LF.Listing(ts, []))
    ensures Serves(op, PlanOf(ts, Segments(base)))
  {
    var fs, ds, b := LF.FilesAll(ts, []), LF.EmptyDirsAll(ts, []), Segments(base);
    LF.NamesThroughout(ts, []);
    LF.PathsExtend(ts, []);
    if op.Mkdir? {
      var d :| d in LF.NamedDirs(ds) && op.path == JoinRemotePath(base, d);
      var e := ListedDir(ts, d);
      Lands(base, e);
      DirsPlanIs(fs, ds, b, b + e);
    } else {
      var f :| f in LF.Named(fs) && op.path == JoinRemotePath(base, f.relativePath) && (op.Put? ==> op.data == f.data);
      var at := ListedFile(ts, f);
      Lands(base, at.path);
      LF.ListedOnce(ts, []);
      FilesPlanIs(fs, b);
    }
  }

  lemma FileHasRequest(ts: seq<LF.Tree>, base: string, ops: seq<Op>, p: Path)
    requires LF.WellFormedAll(ts) && Clean(ts) && RequestsFor(ops, base, LF.Listing(ts, []))
    requires p in PlanOf(ts, Segments(base)).files
    ensures exists i :: 0 <= i < |ops| && ops[i].Put? && Segments(ops[i].path) == p
  {
    var fs := LF.FilesAll(ts, []);
    LF.NamesThroughout(ts, []);
    LF.PathsExtend(ts, []);
    LF.ListedOnce(ts, []);
    FilesPlanIs(fs, Segments(base));
    var f :| f in fs && p == Segments(base) + f.path;
    LF.NamedHas(fs, f);
    Lands(base, f.path);
    var op := Put(JoinRemotePath(base, Join(f.path)), f.data);
    assert op in ops;
  }

  lemma EmptyDirHasRequest(ts: seq<LF.Tree>, base: string, ops: seq<Op>, e: Path)
    requires LF.WellFormedAll(ts) && Clean(ts) && e in LF.EmptyDirsAll(ts, [])
    requires forall d :: d in LF.Listing(ts, []).emptyDirs ==> Mkdir(JoinRemotePath(base, d)) in ops
    ensures exists i :: 0 <= i < |ops| && ops[i].Mkdir? && Segments(ops[i].path) == Segments(base) + e
  {
    LF.NamesThroughout(ts, []);
    LF.PathsExtend(ts, []);
    LF.NamedDirsHas(LF.EmptyDirsAll(ts, []), e);
    Lands(base, e);
    var op := Mkdir(JoinRemotePath(base, Join(e)));
    assert op in ops;
  }

  lemma DirHasRequest(ts: seq<LF.Tree>, base: string, ops: seq<Op>, q: Path)
    requires LF.WellFormedAll(ts) && Clean(ts) && q in PlanOf(ts, Segments(base)).dirs
    requires forall d :: d in LF.Listing(ts, []).emptyDirs ==> Mkdir(JoinRemotePath(base, d)) in ops
    ensures || (exists p :: p in PlanOf(ts, Segments(base)).files && q < p)
            || (exists i :: 0 <= i < |ops| && ops[i].Mkdir? && q <= Segments(ops[i].path))
  {
    var fs, ds, b := LF.FilesAll(ts, []), LF.EmptyDirsAll(ts, []), Segments(base);
    DirsPlanIs(fs, ds, b, q);
    if f :| f in fs && q < b + f.path {
      LF.ListedOnce(ts, []);
      FilesPlanIs(fs, b);
    } else {
      var e :| e in ds && q <= b + e;
      EmptyDirHasRequest(ts, base, ops, e);
    }
  }

  lemma CleanRequestsAreSchedule(ts: seq<LF.Tree>, base: string, ops: seq<Op>)
    requires LF.WellFormedAll(ts) && Clean(ts) && RequestsFor(ops, base, LF.Listing(ts, []))
    ensures Schedule(ops, PlanOf(ts, Segments(base)))
  {
    var plan := PlanOf(ts, Segments(base));
    forall i | 0 <= i < |ops|
      ensures Serves(ops[i], plan)
    {
      RequestServes(ts, base, ops[i]);
    }
    forall p | p in plan.files
      ensures exists i :: 0 <= i < |ops| && ops[i].Put? && Segments(ops[i].path) == p
    {
      FileHasRequest(ts, base, ops, p);
    }
    forall q | q in plan.dirs
      ensures || (exists p :: p in plan.files && q < p)
              || (exists i :: 0 <= i < |ops| && ops[i].Mkdir? && q <= Segments(ops[i].path))
    {
      DirHasRequest(ts, base, ops, q);
    }
  }

  // ----- names with a backslash -----

  lemma JoinedIsClean(base: string, rel: string)
    ensures var b, p := Segments(base), Segments(JoinRemotePath(base, rel)); b <= p && NoBackslash(p[|b|..])
  {
    var b, below := Segments(base), Segments(Slashed(rel));
    JoinRemoteSegments(base, rel);
    SegmentsChars(Slashed(rel), '\\');
    assert (b + below)[|b|..] == below;
  }

  /** No request goes to a path with a backslash below the base. */
  lemma RequestIsClean(ts: seq<LF.Tree>, base: string, op: Op)
    requires RequestFor(op, base, LF.Listing(ts, []))
    ensures var b, p := Segments(base), Segments(op.path); b <= p && NoBackslash(p[|b|..])
  {
    if op.Mkdir? {
      var d :| op.path == JoinRemotePath(base, d);
      JoinedIsClean(base, d);
    } else {
      var f :| f in LF.Listing(ts, []).files && op.path == JoinRemotePath(base, f.relativePath);
      JoinedIsClean(base, f.relativePath);
    }
  }

  lemma OnTheWayIsClean(b: Path, p: Path, r: Path)
    requires b <= p && NoBackslash(p[|b|..])
    ensures b + r <= p ==> NoBackslash(r)
  {
    if b + r <= p {
      var below := p[|b|..];
      forall i | 0 <= i < |r|
        ensures '\\' !in r[i]
      {
        assert p[|b| + i] == (b + r)[|b| + i] && below[i] == r[i];
      }
    }
  }

  /** What a request adds lies on the way to its path. */
  lemma NewOnTheWay(cur: Fs, op: Op, q: Path)
    requires Exec(cur, op).Some? && q in Exec(cur, op).value && q !in cur
    ensures q <= Segments(op.path)
  {
    PrefixesAre(Segments(op.path), q);
    if op.Ensure? {
      PrefixesAre(Segments(DirPart(op.path)), q);
      DirPartSegments(op.path);
    }
  }

  lemma {:induction false} NewOnSomeWay(fs: Fs, ops: seq<Op>, q: Path)
    requires ExecAll(fs, ops).Some? && q in ExecAll(fs, ops).value && q !in fs
    ensures exists i :: 0 <= i < |ops| && q <= Segments(ops[i].path)
    decreases |ops|
  {
    var next := Exec(fs, ops[0]).value;
    if q in next {
      NewOnTheWay(fs, ops[0], q);
    } else {
      NewOnSomeWay(next, ops[1..], q);
      var i :| 0 <= i < |ops[1..]| && q <= Segments(ops[1..][i].path);
      assert ops[i + 1] == ops[1..][i];
    }
  }

  /** A file or an empty directory of the dropped folder. */
  ghost predicate Listed(ts: seq<LF.Tree>, r: Path) {
    (exists f :: f in LF.FilesAll(ts, []) && f.path == r) || r in LF.EmptyDirsAll(ts, [])
  }

  /** One that has a backslash in a name. */
  ghost predicate Unclean(ts: seq<LF.Tree>, r: Path) { !NoBackslash(r) && Listed(ts, r) }

  /** Such a path is never created. */
  lemma UncleanNotCreated(fs: Fs, ts: seq<LF.Tree>, base: string, ops: seq<Op>, r: Path)
    requires forall i :: 0 <= i < |ops| ==> RequestFor(ops[i], base, LF.Listing(ts, []))
    requires ExecAll(fs, ops).Some? && !NoBackslash(r)
    ensures Segments(base) + r in ExecAll(fs, ops).value ==> Segments(base) + r in fs
  {
    var q := Segments(base) + r;
    forall i | 0 <= i < |ops|
      ensures !(q <= Segments(ops[i].path))
    {
      RequestIsClean(ts, base, ops[i]);
      OnTheWayIsClean(Segments(base), Segments(ops[i].path), r);
    }
    if q in ExecAll(fs, ops).value && q !in fs {
      NewOnSomeWay(fs, ops, q);
    }
  }

  lemma UncleanIsPlanned(ts: seq<LF.Tree>, base: Path, r: Path)
    requires LF.WellFormedAll(ts) && Unclean(ts, r)
    ensures base + r in PlanOf(ts, base).files || base + r in PlanOf(ts, base).dirs
  {
    var fs, ds := LF.FilesAll(ts, []), LF.EmptyDirsAll(ts, []);
    LF.ListedOnce(ts, []);
    FilesPlanIs(fs, base);
    DirsPlanIs(fs, ds, base, base + r);
  }

  lemma ScheduleReaches(ops: seq<Op>, plan: Plan, q: Path)
    requires Schedule(ops, plan) && (q in plan.files || q in plan.dirs)
    ensures exists i :: 0 <= i < |ops| && q <= Segments(ops[i].path)
  {
    if p :| p in plan.files && q <= p {
      var i :| 0 <= i < |ops| && ops[i].Put? && Segments(ops[i].path) == p;
    } else {
      assert q <= q && q in plan.dirs;
    }
  }

  lemma UncleanIsNoSchedule(ts: seq<LF.Tree>, base: string, ops: seq<Op>, r: Path)
    requires LF.WellFormedAll(ts) && RequestsFor(ops, base, LF.Listing(ts, []))
    requires Unclean(ts, r)
    ensures !Schedule(ops, PlanOf(ts, Segments(base)))
  {
    var b := Segments(base);
    var plan := PlanOf(ts, b);
    UncleanIsPlanned(ts, b, r);
    forall i | 0 <= i < |ops|
      ensures !(b + r <= Segments(ops[i].path))
    {
      RequestIsClean(ts, base, ops[i]);
      OnTheWayIsClean(b, Segments(ops[i].path), r);
    }
    if Schedule(ops, plan) {
      ScheduleReaches(ops, plan, b + r);
    }
  }

  /** The requests made for a collection serve the plan of its tree exactly when no name in it
      holds a backslash. */
  lemma RequestsAreSchedule(ts: seq<LF.Tree>, base: string, ops: seq<Op>)
    requires LF.WellFormedAll(ts) && RequestsFor(ops, base, LF.Listing(ts, []))
    ensures Schedule(ops, PlanOf(ts, Segments(base))) <==> Clean(ts)
  {
    if Clean(ts) {
      CleanRequestsAreSchedule(ts, base, ops);
    } else {
      var r := UncleanPath(ts);
      UncleanIsNoSchedule(ts, base, ops, r);
    }
  }

  lemma UncleanPath(ts: seq<LF.Tree>) returns (r: Path)
    requires !Clean(ts)
    ensures Unclean(ts, r)
  {
    if f :| f in LF.FilesAll(ts, []) && !NoBackslash(f.path) {
      r := f.path;
    } else {
      r :| r in LF.EmptyDirsAll(ts, []) && !NoBackslash(r);
    }
  }

  /** A node on the way to the base, or a node of the forest below it. */
  ghost predicate PartOfForest(base: Path, ts: seq<LF.Tree>, q: Path, node: Node) {
    || (q <= base && node == DirNode)
    || (base < q && LF.IsDirIn(ts, [], q[|base|..]) && node == DirNode)
    || (base < q && node.FileNode? && LF.IsFileIn(ts, [], q[|base|..], node.data))
  }

  /** `fin` is `fs` with the forest re-created under the base, and otherwise unchanged. */
  ghost predicate Recreated(fs: Fs, fin: Fs, base: Path, ts: seq<LF.Tree>) {
    && (forall r, d :: LF.IsFileIn(ts, [], r, d) ==> base + r in fin && fin[base + r] == FileNode(d))
    && (forall r :: LF.IsDirIn(ts, [], r) ==> IsDir(fin, base + r))
    && (forall q :: q in fs ==> q in fin)
    && (forall q :: q in fin && !(q in fs && fin[q] == fs[q]) ==> PartOfForest(base, ts, q, fin[q]))
  }

  lemma PlannedIsPart(base: Path, ts: seq<LF.Tree>, q: Path)
    requires LF.WellFormedAll(ts) && q in Nodes(PlanOf(ts, base))
    ensures PartOfForest(base, ts, q, Nodes(PlanOf(ts, base))[q])
  {
    var plan := PlanOf(ts, base);
    NothingPlannedBeside(ts, base, q);
    if base < q {
      var r := q[|base|..];
      assert q == base + r;
      PlannedDirsAreLocal(ts, base, r);
      if q in plan.files { PlannedFilesAreLocal(ts, base, r, plan.files[q]); }
    }
  }

  lemma PlanRecreates(fs: Fs, base: Path, ts: seq<LF.Tree>)
    requires LF.WellFormedAll(ts)
    ensures Recreated(fs, fs + Nodes(PlanOf(ts, base)), base, ts)
  {
    var plan := PlanOf(ts, base);
    var fin := fs + Nodes(plan);
    PlanIsProper(ts, base);
    NodesAre(plan);
    forall r, d | LF.IsFileIn(ts, [], r, d)
      ensures base + r in fin && fin[base + r] == FileNode(d)
    {
      PlannedFilesAreLocal(ts, base, r, d);
    }
    forall r | LF.IsDirIn(ts, [], r)
      ensures IsDir(fin, base + r)
    {
      LF.DirsOfForest(ts, [], r);
      PlannedDirsAreLocal(ts, base, r);
    }
    forall q | q in Nodes(plan)
      ensures PartOfForest(base, ts, q, fin[q])
    {
      PlannedIsPart(base, ts, q);
    }
  }

  /** Nothing stands where the dropped folder has a name with a backslash. */
  ghost predicate UncleanAbsent(fs: Fs, base: Path, ts: seq<LF.Tree>) {
    forall r :: Unclean(ts, r) ==> base + r !in fs
  }

  lemma ListedIsMissed(fs: Fs, fin: Fs, base: Path, ts: seq<LF.Tree>, r: Path)
    requires Listed(ts, r) && base + r !in fin
    ensures !Recreated(fs, fin, base, ts)
  {
    if f :| f in LF.FilesAll(ts, []) && f.path == r {
      LF.FilesOfForest(ts, [], r, f.data);
      assert f == LF.At(r, f.data) && LF.IsFileIn(ts, [], r, f.data);
    } else {
      LF.PathsExtend(ts, []);
      LF.DirsOfForest(ts, [], r);
      assert r <= r && LF.AboveDir(LF.EmptyDirsAll(ts, []), r);
      assert LF.IsDirIn(ts, [], r);
    }
  }

  /** The round trip, for every forest of distinct sibling names and any requests made from its
      collection, in any order. Without backslashes in names, all requests succeed exactly when
      nothing of the wrong kind stands in the way. And whenever all succeed, the remote file system
      holds the same tree of paths, kinds and contents under the base, and is otherwise unchanged,
      exactly when no name holds a backslash (unless the missing path was already there). */
  lemma FolderRoundTrip(fs: Fs, base: string, ts: seq<LF.Tree>, ops: seq<Op>)
    requires Closed(fs) && LF.WellFormedAll(ts)
    requires RequestsFor(ops, base, LF.Listing(ts, []))
    ensures Clean(ts) ==> (ExecAll(fs, ops).Some? <==> Compatible(fs, PlanOf(ts, Segments(base))))
    ensures ExecAll(fs, ops).Some? && UncleanAbsent(fs, Segments(base), ts) ==>
              (Recreated(fs, ExecAll(fs, ops).value, Segments(base), ts) <==> Clean(ts))
  {
    if Clean(ts) {
      RequestsAreSchedule(ts, base, ops);
      PlanIsProper(ts, Segments(base));
      ScheduleSucceedsExactly(fs, ops, PlanOf(ts, Segments(base)));
      PlanRecreates(fs, Segments(base), ts);
    } else if ExecAll(fs, ops).Some? && UncleanAbsent(fs, Segments(base), ts) {
      var r := UncleanPath(ts);
      UncleanNotCreated(fs, ts, base, ops, r);
      ListedIsMissed(fs, ExecAll(fs, ops).value, Segments(base), ts, r);
    }
  }

  // ----- from the drop to the remote tree -----

  /** A listed path whose key is shared by a file and an empty directory. */
  ghost predicate Colliding(ts: seq<LF.Tree>, r: Path) {
    exists f, e :: f in LF.FilesAll(ts, []) && e in LF.EmptyDirsAll(ts, []) && SameKey(f, e) && (r == f.path || r == e)
  }

  predicate SameKey(f: LF.At, e: Path) { Join(f.path) == LF.DirKey(Join(e)) }

  /** Nothing stands where a listed path has a backslash or a shared key. */
  ghost predicate EndangeredAbsent(fs: Fs, base: Path, ts: seq<LF.Tree>) {
    forall r :: Unclean(ts, r) || Colliding(ts, r) ==> base + r !in fs
  }

  predicate HasFile(c: LF.Collected, f: LF.At) { LF.LocalFile(Join(f.path), f.data) in c.files }

  /** A listed path that the collection lacks. */
  ghost predicate Lost(ts: seq<LF.Tree>, c: LF.Collected, r: Path) {
    || (exists f :: f in LF.FilesAll(ts, []) && f.path == r && !HasFile(c, f))
    || (r in LF.EmptyDirsAll(ts, []) && Join(r) !in c.emptyDirs)
  }

  /** Where two findings share a key, one of them is lost. */
  lemma OneIsLost(ts: seq<LF.Tree>, c: LF.Collected) returns (r: Path)
    requires LF.CollectedAll(c, LF.Listing(ts, [])) && LF.Collides(LF.Listing(ts, []))
    ensures Colliding(ts, r) && Lost(ts, c, r)
  {
    var all := LF.Listing(ts, []);
    if LF.Collides(c) { LF.RepetitionShrinks(c); }
    var f, d :| f in all.files && d in all.emptyDirs && f.relativePath == LF.DirKey(d);
    var at := ListedFile(ts, f);
    var e := ListedDir(ts, d);
    assert SameKey(at, e);
    r := if HasFile(c, at) then e else at.path;
  }

  lemma RequestOfMore(op: Op, base: string, c: LF.Collected, all: LF.Collected)
    requires LF.TakenFrom(c, all) && RequestFor(op, base, c)
    ensures RequestFor(op, base, all)
  {
  }

  lemma FileNotOnTheWay(ts: seq<LF.Tree>, c: LF.Collected, f: LF.At, s: Path)
    requires LF.WellFormedAll(ts) && f in LF.FilesAll(ts, []) && !HasFile(c, f)
    requires Listed(ts, s) && !Lost(ts, c, s)
    ensures !(f.path <= s)
  {
    var fs := LF.FilesAll(ts, []);
    LF.FilesAreLeaves(ts, []);
    LF.ListedOnce(ts, []);
    if g :| g in fs && g.path == s {
      var i :| 0 <= i < |fs| && fs[i] == f;
      var j :| 0 <= j < |fs| && fs[j] == g;
    }
  }

  lemma DirNotOnTheWay(ts: seq<LF.Tree>, c: LF.Collected, e: Path, s: Path)
    requires LF.WellFormedAll(ts) && e in LF.EmptyDirsAll(ts, []) && Join(e) !in c.emptyDirs
    requires Listed(ts, s) && !Lost(ts, c, s)
    ensures !(e <= s)
  {
    LF.EmptyDirsAreLeaves(ts, []);
    assert e <= s ==> e == s || e < s;
  }

  /** Without backslashes every request goes to a listed path that was not lost. */
  lemma RequestKeeps(ts: seq<LF.Tree>, base: string, c: LF.Collected, op: Op) returns (s: Path)
    requires LF.WellFormedAll(ts) && Clean(ts) && LF.TakenFrom(c, LF.Listing(ts, [])) && RequestFor(op, base, c)
    ensures Segments(op.path) == Segments(base) + s && Listed(ts, s) && !Lost(ts, c, s)
  {
    LF.NamesThroughout(ts, []);
    LF.PathsExtend(ts, []);
    if op.Mkdir? {
      var d :| d in c.emptyDirs && op.path == JoinRemotePath(base, d);
      s := ListedDir(ts, d);
      DirIsNoFile(ts, s);
    } else {
      var f :| f in c.files && op.path == JoinRemotePath(base, f.relativePath) && (op.Put? ==> op.data == f.data);
      var at := ListedFile(ts, f);
      s := at.path;
      OneFileOf(ts, at);
    }
    Lands(base, s);
  }

  lemma DirIsNoFile(ts: seq<LF.Tree>, e: Path)
    requires LF.WellFormedAll(ts) && e in LF.EmptyDirsAll(ts, [])
    ensures forall f :: f in LF.FilesAll(ts, []) ==> f.path != e
  {
    LF.FilesAreLeaves(ts, []);
  }

  lemma OneFileOf(ts: seq<LF.Tree>, at: LF.At)
    requires LF.WellFormedAll(ts) && at in LF.FilesAll(ts, [])
    ensures forall f :: f in LF.FilesAll(ts, []) && f.path == at.path ==> f == at
    ensures at.path !in LF.EmptyDirsAll(ts, [])
  {
    var fs := LF.FilesAll(ts, []);
    LF.FilesAreLeaves(ts, []);
    LF.ListedOnce(ts, []);
    forall f | f in fs && f.path == at.path
      ensures f == at
    {
      var i :| 0 <= i < |fs| && fs[i] == f;
      var j :| 0 <= j < |fs| && fs[j] == at;
    }
  }

  lemma LostNotRequested(ts: seq<LF.Tree>, base: string, c: LF.Collected, op: Op, r: Path)
    requires LF.WellFormedAll(ts) && Clean(ts) && LF.TakenFrom(c, LF.Listing(ts, [])) && RequestFor(op, base, c)
    requires Lost(ts, c, r)
    ensures !(Segments(base) + r <= Segments(op.path))
  {
    var s := RequestKeeps(ts, base, c, op);
    Shifted(Segments(base), r, s);
    if f :| f in LF.FilesAll(ts, []) && f.path == r && !HasFile(c, f) {
      FileNotOnTheWay(ts, c, f, s);
    } else {
      DirNotOnTheWay(ts, c, r, s);
    }
  }

  /** What was lost is not created. */
  lemma LostNotCreated(fs: Fs, ts: seq<LF.Tree>, base: string, c: LF.Collected, ops: seq<Op>, r: Path)
    requires LF.WellFormedAll(ts) && Clean(ts) && LF.TakenFrom(c, LF.Listing(ts, [])) && RequestsFor(ops, base, c)
    requires ExecAll(fs, ops).Some? && Lost(ts, c, r)
    ensures Segments(base) + r in ExecAll(fs, ops).value ==> Segments(base) + r in fs
  {
    var q := Segments(base) + r;
    forall i | 0 <= i < |ops|
      ensures !(q <= Segments(ops[i].path))
    {
      LostNotRequested(ts, base, c, ops[i], r);
    }
    if q in ExecAll(fs, ops).value && q !in fs {
      NewOnSomeWay(fs, ops, q);
    }
  }

  lemma CollisionIsMissed(fs: Fs, ts: seq<LF.Tree>, base: string, c: LF.Collected, ops: seq<Op>)
    requires LF.WellFormedAll(ts) && Clean(ts) && LF.CollectedAll(c, LF.Listing(ts, [])) && RequestsFor(ops, base, c)
    requires LF.Collides(LF.Listing(ts, [])) && EndangeredAbsent(fs, Segments(base), ts) && ExecAll(fs, ops).Some?
    ensures !Recreated(fs, ExecAll(fs, ops).value, Segments(base), ts)
  {
    var r := OneIsLost(ts, c);
    LostNotCreated(fs, ts, base, c, ops, r);
    ListedIsMissed(fs, ExecAll(fs, ops).value, Segments(base), ts, r);
  }

  lemma BackslashIsMissed(fs: Fs, ts: seq<LF.Tree>, base: string, c: LF.Collected, ops: seq<Op>)
    requires !Clean(ts) && LF.TakenFrom(c, LF.Listing(ts, [])) && RequestsFor(ops, base, c)
    requires EndangeredAbsent(fs, Segments(base), ts) && ExecAll(fs, ops).Some?
    ensures !Recreated(fs, ExecAll(fs, ops).value, Segments(base), ts)
  {
    var r := UncleanPath(ts);
    forall i | 0 <= i < |ops|
      ensures RequestFor(ops[i], base, LF.Listing(ts, []))
    {
      RequestOfMore(ops[i], base, c, LF.Listing(ts, []));
    }
    UncleanNotCreated(fs, ts, base, ops, r);
    ListedIsMissed(fs, ExecAll(fs, ops).value, Segments(base), ts, r);
  }

  /** The whole journey, from the entries dropped to the remote tree: `c` is what the collector
      makes of them, with its losses, and `ops` any requests made from it in any order. If all
      succeed, the dropped folder is re-created under the base exactly when no name holds a
      backslash and no file's path spells "dir:" and the path of an empty directory (unless what is
      missing was already there). If both hold, all succeed exactly when nothing of the wrong kind
      stands in the way. */
  lemma DroppedFolderRoundTrip(fs: Fs, base: string, entries: seq<LF.Entry>, c: LF.Collected, ops: seq<Op>)
    requires Closed(fs) && LF.WellFormedAll(LF.EraseAll(entries))
    requires LF.CollectedAll(c, LF.FoundAll(LF.DroppedAll(entries))) && RequestsFor(ops, base, c)
    ensures var ts := LF.EraseAll(entries);
            var intact := Clean(ts) && !LF.Collides(LF.Listing(ts, []));
            && (intact ==> (ExecAll(fs, ops).Some? <==> Compatible(fs, PlanOf(ts, Segments(base)))))
            && (ExecAll(fs, ops).Some? && EndangeredAbsent(fs, Segments(base), ts) ==>
                  (Recreated(fs, ExecAll(fs, ops).value, Segments(base), ts) <==> intact))
  {
    var ts := LF.EraseAll(entries);
    LF.FoundIsListing(entries);
    LF.ListingNoRepeats(ts);
    if !LF.Collides(LF.Listing(ts, [])) && Clean(ts) {
      assert c == LF.Listing(ts, []);
      FolderRoundTrip(fs, base, ts, ops);
    } else if ExecAll(fs, ops).Some? && EndangeredAbsent(fs, Segments(base), ts) {
      if Clean(ts) {
        CollisionIsMissed(fs, ts, base, c, ops);
      } else {
        BackslashIsMissed(fs, ts, base, c, ops);
      }
    }
  }

  /** A name with a backslash becomes two on the way. */
  lemma BackslashSplitsName()
    ensures Segments(JoinRemotePath("/", "a\\b")) == ["a", "b"]
  {
    JoinRemoteSegments("/", "a\\b");
    assert Slashed("a\\b") == "a" + "/" + "b";
    SegmentsConcat("a", "b");
    SegmentsOfName("a");
    SegmentsOfName("b");
    assert Segments("/") == Segments("");
  }
}
