/** The browser's upload scheduler. Everything between two awaits runs without interruption, so
    each store action, and each continuation after an upload call, is one step. */
module BrowserQueue {
  import opened Wrappers

  datatype Status = Pending | Uploading | Finished | Failed

  datatype Item = Item(id: nat, status: Status, progress: int, size: int, fileSize: int)

  /** A socket message; absent fields are None. */
  datatype Message =
    | UploadProgress(job: nat, progress: Option<int>, size: Option<int>)
    | UploadDone(job: nat)
    | UploadError(job: nat)
    | OtherMessage

  /** Item identifiers are drawn fresh; here they are numbered in the order of enqueueing, up to
      `next`. `inFlight` are the unfinished upload calls, `started` all upload calls in order,
      `skipped` the items a socket message moved out of pending. */
  datatype State = State(
    max: int,
    queue: seq<Item>,
    active: int,
    connected: bool,
    inFlight: set<nat>,
    started: seq<nat>,
    skipped: set<nat>,
    next: nat)

  datatype Step =
    | UseConnection
    | Enqueue(size: int)
    | SetMax(n: int)
    | Settle(id: nat, ok: bool)
    | Update(msg: Message)
    | ClearCompleted

  function Init(): State { State(3, [], 0, false, {}, [], {}, 0) }

  function Clamp(n: int): int { if n < 1 then 1 else if n > 10 then 10 else n }

  function PendingIds(queue: seq<Item>): seq<nat> {
    if queue == [] then []
    else (if queue[0].status.Pending? then [queue[0].id] else []) + PendingIds(queue[1..])
  }

  function KeepUnfinished(queue: seq<Item>): seq<Item> {
    if queue == [] then []
    else
      var unfinished := queue[0].status.Pending? || queue[0].status.Uploading?;
      (if unfinished then [queue[0]] else []) + KeepUnfinished(queue[1..])
  }

  function FullProgress(q: Item): int { if q.size != 0 then q.size else q.fileSize }

  function MarkUploading(queue: seq<Item>, id: nat): seq<Item> {
    seq(|queue|, i requires 0 <= i < |queue| =>
      if queue[i].id == id then queue[i].(status := Uploading) else queue[i])
  }

  function MarkSettled(queue: seq<Item>, id: nat, ok: bool): seq<Item> {
    seq(|queue|, i requires 0 <= i < |queue| =>
      var q := queue[i];
      if q.id != id then q
      else if ok then (if q.status.Failed? then q else q.(status := Finished, progress := FullProgress(q)))
      else (if q.status.Finished? then q else q.(status := Failed)))
  }

  function Receive(q: Item, msg: Message): Item {
    match msg
    case UploadProgress(job, progress, size) =>
      if q.id != job then q
      else q.(status := Uploading,
           progress := if progress.Some? then progress.value else q.progress,
           size := if size.Some? then size.value else q.size)
    case UploadDone(job) => if q.id != job then q else q.(status := Finished, progress := FullProgress(q))
    case UploadError(job) => if q.id != job then q else q.(status := Failed)
    case OtherMessage => q
  }

  function ReceiveAll(queue: seq<Item>, msg: Message): seq<Item> {
    seq(|queue|, i requires 0 <= i < |queue| => Receive(queue[i], msg))
  }

  /** The synchronous part of `processQueue`. */
  function Process(s: State): State {
    var pending := PendingIds(s.queue);
    if s.active >= s.max || pending == [] then s
    else s.(active := s.active + 1,
         queue := MarkUploading(s.queue, pending[0]),
         inFlight := s.inFlight + {pending[0]},
         started := s.started + [pending[0]])
  }

  function ProcessTimes(s: State, n: int): State
    decreases n
  {
    if n <= 0 then s else Process(ProcessTimes(s, n - 1))
  }

  function Min(a: int, b: int): int { if a < b then a else b }

  predicate Enabled(s: State, step: Step) { step.Settle? ==> step.id in s.inFlight }

  function Apply(s: State, step: Step): State
    requires Enabled(s, step)
  {
    match step
    case UseConnection => s.(connected := true)
    case Enqueue(size) =>
      Process(s.(connected := true, queue := s.queue + [Item(s.next, Pending, 0, size, size)], next := s.next + 1))
    case SetMax(n) =>
      var t := s.(max := Clamp(n));
      if !s.connected then t else ProcessTimes(t, Min(t.max - t.active, |PendingIds(t.queue)|))
    case Settle(id, ok) =>
      Process(s.(queue := MarkSettled(s.queue, id, ok), active := s.active - 1, inFlight := s.inFlight - {id}))
    case Update(msg) =>
      s.(queue := ReceiveAll(s.queue, msg),
      skipped := if !msg.OtherMessage? && msg.job in PendingIds(s.queue) then s.skipped + {msg.job} else s.skipped)
    case ClearCompleted => s.(queue := KeepUnfinished(s.queue))
  }

  predicate IsRun(s: State, steps: seq<Step>)
    decreases |steps|
  {
    steps == [] || (Enabled(s, steps[0]) && IsRun(Apply(s, steps[0]), steps[1..]))
  }

  function Final(s: State, steps: seq<Step>): State
    requires IsRun(s, steps)
    decreases |steps|
  {
    if steps == [] then s else Final(Apply(s, steps[0]), steps[1..])
  }

  // ----- the pending items under each update -----

  predicate Increasing(ids: seq<nat>) { forall i, j :: 0 <= i < j < |ids| ==> ids[i] < ids[j] }

  predicate IdsIncrease(queue: seq<Item>) { forall i, j :: 0 <= i < j < |queue| ==> queue[i].id < queue[j].id }

  function Without(ids: seq<nat>, id: nat): seq<nat> {
    if ids == [] then [] else (if ids[0] == id then [] else [ids[0]]) + Without(ids[1..], id)
  }

  lemma ConsIncreasing(x: nat, rest: seq<nat>)
    requires Increasing(rest) && forall y :: y in rest ==> x < y
    ensures Increasing([x] + rest)
  {
    var ids := [x] + rest;
    forall i, j | 0 <= i < j < |ids|
      ensures ids[i] < ids[j]
    {
      assert rest[j - 1] in rest;
      assert i > 0 ==> rest[i - 1] < rest[j - 1];
    }
  }

  predicate IsPending(queue: seq<Item>, id: nat) {
    exists i :: 0 <= i < |queue| && queue[i].id == id && queue[i].status.Pending?
  }

  lemma PendingTail(queue: seq<Item>, id: nat)
    requires queue != []
    ensures IsPending(queue, id) <==> (queue[0].status.Pending? && queue[0].id == id) || IsPending(queue[1..], id)
  {
    if i :| 0 <= i < |queue| && queue[i].id == id && queue[i].status.Pending? {
      assert i == 0 || queue[1..][i - 1] == queue[i];
    }
    if i :| 0 <= i < |queue[1..]| && queue[1..][i].id == id && queue[1..][i].status.Pending? {
      assert queue[i + 1] == queue[1..][i];
    }
  }

  lemma {:induction false} PendingIdsAre(queue: seq<Item>)
    requires IdsIncrease(queue)
    ensures Increasing(PendingIds(queue))
    ensures forall id :: id in PendingIds(queue) <==> IsPending(queue, id)
  {
    if queue != [] {
      var rest := PendingIds(queue[1..]);
      PendingIdsAre(queue[1..]);
      forall id
        ensures id in PendingIds(queue) <==> IsPending(queue, id)
        ensures id in rest ==> queue[0].id < id
      {
        PendingTail(queue, id);
        assert forall i :: 0 <= i < |queue[1..]| ==> queue[1..][i] == queue[i + 1];
      }
      if queue[0].status.Pending? {
        ConsIncreasing(queue[0].id, rest);
      }
    }
  }

  lemma {:induction false} WithoutMembers(ids: seq<nat>, id: nat)
    ensures forall x :: x in Without(ids, id) <==> x in ids && x != id
    ensures |Without(ids, id)| <= |ids|
  {
    if ids != [] {
      WithoutMembers(ids[1..], id);
      assert ids == [ids[0]] + ids[1..];
    }
  }

  lemma {:induction false} WithoutAbsent(ids: seq<nat>, id: nat)
    requires id !in ids
    ensures Without(ids, id) == ids
  {
    if ids != [] {
      WithoutAbsent(ids[1..], id);
    }
  }

  lemma WithoutHead(ids: seq<nat>)
    requires Increasing(ids) && ids != []
    ensures Without(ids, ids[0]) == ids[1..]
  {
    WithoutAbsent(ids[1..], ids[0]);
  }

  /** Taking one item out of pending takes its identifier out of the list, wherever it stands. */
  lemma {:induction false} PendingAfter(queue: seq<Item>, queue': seq<Item>, id: nat)
    requires |queue'| == |queue|
    requires forall i :: 0 <= i < |queue| ==>
                           && queue'[i].id == queue[i].id
                           && (queue'[i].status.Pending? <==> queue[i].status.Pending? && queue[i].id != id)
    ensures PendingIds(queue') == Without(PendingIds(queue), id)
  {
    if queue != [] {
      assert forall i :: 0 <= i < |queue[1..]| ==> queue[1..][i] == queue[i + 1] && queue'[1..][i] == queue'[i + 1];
      PendingAfter(queue[1..], queue'[1..], id);
      var rest := PendingIds(queue[1..]);
      assert PendingIds(queue) == if queue[0].status.Pending? then [queue[0].id] + rest else rest;
      assert queue[0].status.Pending? ==> PendingIds(queue)[1..] == rest;
    }
  }

  lemma {:induction false} PendingAppend(queue: seq<Item>, item: Item)
    ensures PendingIds(queue + [item]) == PendingIds(queue) + if item.status.Pending? then [item.id] else []
  {
    var last := if item.status.Pending? then [item.id] else [];
    if queue == [] {
      assert queue + [item] == [item] && [item][1..] == [];
    } else {
      var rest := queue[1..];
      PendingAppend(rest, item);
      assert (queue + [item])[1..] == rest + [item];
      assert (queue + [item])[0] == queue[0];
      if queue[0].status.Pending? {
        assert [queue[0].id] + (PendingIds(rest) + last) == ([queue[0].id] + PendingIds(rest)) + last;
      }
    }
  }

  lemma {:induction false} KeptItems(queue: seq<Item>)
    ensures PendingIds(KeepUnfinished(queue)) == PendingIds(queue)
    ensures forall q :: q in KeepUnfinished(queue) ==> q in queue
  {
    if queue != [] {
      KeptItems(queue[1..]);
      var rest := KeepUnfinished(queue[1..]);
      assert KeepUnfinished(queue) != rest ==> KeepUnfinished(queue)[1..] == rest;
    }
  }

  lemma {:induction false} KeptIncrease(queue: seq<Item>)
    requires IdsIncrease(queue)
    ensures IdsIncrease(KeepUnfinished(queue))
  {
    if queue != [] {
      KeptIncrease(queue[1..]);
      KeptItems(queue[1..]);
      var rest, kept := KeepUnfinished(queue[1..]), KeepUnfinished(queue);
      forall q | q in queue[1..]
        ensures queue[0].id < q.id
      {
        var i :| 0 <= i < |queue[1..]| && queue[1..][i] == q;
        assert queue[i + 1] == q;
      }
      if kept != rest {
        forall i, j | 0 <= i < j < |kept|
          ensures kept[i].id < kept[j].id
        {
          assert kept[j] == rest[j - 1] && rest[j - 1] in rest;
        }
      }
    }
  }

  // ----- the invariant -----

  predicate Bookkeeping(s: State) {
    && 1 <= s.max <= 10
    && s.active == |s.inFlight| && s.active <= 10
    && IdsIncrease(s.queue) && (forall q :: q in s.queue ==> q.id < s.next)
    && (PendingIds(s.queue) != [] ==> s.connected)
  }

  /** Every item is in exactly one of three places, and the started ones come before the pending. */
  predicate Ordered(s: State) {
    && Increasing(s.started)
    && (forall id :: id in s.inFlight ==> id in s.started)
    && (forall a, b :: a in s.started && b in PendingIds(s.queue) ==> a < b)
    && (forall id :: id in s.started ==> id !in s.skipped && id < s.next)
    && (forall id :: id in s.skipped ==> id !in PendingIds(s.queue) && id < s.next)
    && (forall id :: 0 <= id < s.next ==> id in s.started || id in s.skipped || id in PendingIds(s.queue))
  }

  predicate WorkConserving(s: State) { PendingIds(s.queue) != [] ==> s.active >= s.max }

  predicate Inv(s: State) { Bookkeeping(s) && Ordered(s) && WorkConserving(s) }

  lemma MarkedUploading(queue: seq<Item>)
    requires IdsIncrease(queue) && PendingIds(queue) != []
    ensures var p := PendingIds(queue); PendingIds(MarkUploading(queue, p[0])) == p[1..]
  {
    var p := PendingIds(queue);
    PendingIdsAre(queue);
    PendingAfter(queue, MarkUploading(queue, p[0]), p[0]);
    WithoutHead(p);
  }

  /** Identifiers survive an update that keeps them position by position. */
  lemma SameIds(queue: seq<Item>, queue': seq<Item>, next: nat)
    requires |queue'| == |queue| && forall i :: 0 <= i < |queue| ==> queue'[i].id == queue[i].id
    requires IdsIncrease(queue) && forall q :: q in queue ==> q.id < next
    ensures IdsIncrease(queue') && forall q :: q in queue' ==> q.id < next
  {
    forall q | q in queue'
      ensures q.id < next
    {
      var i :| 0 <= i < |queue'| && queue'[i] == q;
      assert queue[i] in queue;
    }
  }

  lemma ProcessBookkeeping(s: State)
    requires Bookkeeping(s) && Ordered(s)
    ensures Bookkeeping(Process(s))
  {
    var p := PendingIds(s.queue);
    if s.active < s.max && p != [] {
      MarkedUploading(s.queue);
      SameIds(s.queue, MarkUploading(s.queue, p[0]), s.next);
      assert p[0] !in s.inFlight by { assert p[0] in p; }
      assert |s.inFlight + {p[0]}| == |s.inFlight| + 1;
    }
  }

  lemma ProcessOrdered(s: State)
    requires Bookkeeping(s) && Ordered(s)
    ensures Ordered(Process(s))
  {
    var p := PendingIds(s.queue);
    var t := Process(s);
    if s.active < s.max && p != [] {
      MarkedUploading(s.queue);
      PendingIdsAre(s.queue);
      var x := p[0];
      assert p == [x] + p[1..] && x in p;
      assert forall b :: b in p <==> b == x || b in p[1..];
      assert forall a :: a in t.started <==> a in s.started || a == x;
      forall i, j | 0 <= i < j < |t.started|
        ensures t.started[i] < t.started[j]
      {
        assert s.started[i] in s.started;
      }
      assert x < s.next by {
        assert IsPending(s.queue, x);
      }
    }
  }

  /** What one call of `processQueue` does to the pending list and the counters. */
  lemma ProcessEffect(s: State)
    requires Bookkeeping(s) && Ordered(s)
    ensures Bookkeeping(Process(s)) && Ordered(Process(s))
    ensures var p := PendingIds(s.queue);
            var t := Process(s);
            && t.max == s.max && t.skipped == s.skipped && t.next == s.next
            && if s.active >= s.max || p == [] then t == s
               else PendingIds(t.queue) == p[1..] && t.active == s.active + 1 && t.started == s.started + [p[0]]
  {
    ProcessBookkeeping(s);
    ProcessOrdered(s);
    if s.active < s.max && PendingIds(s.queue) != [] { MarkedUploading(s.queue); }
  }

  /** `t` is `s` after the first `n` pending items have been started. */
  predicate Started(s: State, t: State, n: nat) {
    && n <= |PendingIds(s.queue)|
    && t.max == s.max && t.skipped == s.skipped && t.next == s.next
    && PendingIds(t.queue) == PendingIds(s.queue)[n..]
    && t.active == s.active + n
  }

  lemma StartedMore(s: State, t: State, n: nat)
    requires Bookkeeping(t) && Ordered(t)
    requires Started(s, t, n) && n < |PendingIds(s.queue)| && s.active + n < s.max
    ensures Started(s, Process(t), n + 1)
  {
    ProcessEffect(t);
    var p := PendingIds(s.queue);
    assert p[n..][1..] == p[n + 1..];
  }

  lemma {:induction false} Kept(s: State, n: nat)
    requires Bookkeeping(s) && Ordered(s)
    ensures Bookkeeping(ProcessTimes(s, n)) && Ordered(ProcessTimes(s, n))
  {
    if n > 0 {
      Kept(s, n - 1);
      ProcessEffect(ProcessTimes(s, n - 1));
    }
  }

  lemma {:induction false} StartsFirst(s: State, n: nat)
    requires Bookkeeping(s) && Ordered(s)
    requires n <= |PendingIds(s.queue)| && s.active + n <= s.max
    ensures Started(s, ProcessTimes(s, n), n)
  {
    if n > 0 {
      StartsFirst(s, n - 1);
      Kept(s, n - 1);
      StartedMore(s, ProcessTimes(s, n - 1), n - 1);
    }
  }

  lemma ProcessTimesEffect(s: State, n: nat)
    requires Bookkeeping(s) && Ordered(s)
    requires n <= |PendingIds(s.queue)| && s.active + n <= s.max
    ensures Bookkeeping(ProcessTimes(s, n)) && Ordered(ProcessTimes(s, n)) && Started(s, ProcessTimes(s, n), n)
  {
    Kept(s, n);
    StartsFirst(s, n);
  }

  /** The state between appending the new item and processing the queue. */
  function Appended(s: State, size: int): State {
    s.(connected := true, queue := s.queue + [Item(s.next, Pending, 0, size, size)], next := s.next + 1)
  }

  lemma AppendedBookkeeping(s: State, size: int)
    requires Bookkeeping(s)
    ensures Bookkeeping(Appended(s, size))
  {
    var t := Appended(s, size);
    forall i, j | 0 <= i < j < |t.queue|
      ensures t.queue[i].id < t.queue[j].id
    {
      assert t.queue[i] in s.queue;
    }
  }

  lemma AppendedOrdered(s: State, size: int)
    requires Bookkeeping(s) && Ordered(s)
    ensures Ordered(Appended(s, size))
    ensures PendingIds(Appended(s, size).queue) == PendingIds(s.queue) + [s.next]
  {
    var p := PendingIds(s.queue);
    PendingAppend(s.queue, Item(s.next, Pending, 0, size, size));
    PendingIdsAre(s.queue);
    forall b | b in p
      ensures b < s.next
    {
      assert IsPending(s.queue, b);
    }
    assert forall b :: b in p + [s.next] <==> b in p || b == s.next;
  }

  lemma EnqueueInv(s: State, size: int)
    requires Inv(s)
    ensures Inv(Apply(s, Enqueue(size)))
  {
    AppendedBookkeeping(s, size);
    AppendedOrdered(s, size);
    ProcessEffect(Appended(s, size));
    assert Apply(s, Enqueue(size)) == Process(Appended(s, size));
  }

  /** How many waiting items `setMaxConcurrent` starts. */
  function Startable(t: State): int {
    if t.connected then Min(t.max - t.active, |PendingIds(t.queue)|) else 0
  }

  lemma SetMaxIs(s: State, n: int)
    ensures var t := s.(max := Clamp(n)); Apply(s, SetMax(n)) == ProcessTimes(t, Startable(t))
  {
  }

  /** The limit is no part of what the bookkeeping and the order say, but for its range. */
  lemma OtherLimit(s: State, n: int)
    requires Bookkeeping(s) && Ordered(s)
    ensures Bookkeeping(s.(max := Clamp(n))) && Ordered(s.(max := Clamp(n)))
  {
  }

  lemma StartedAll(t: State)
    requires Bookkeeping(t) && Ordered(t) && Startable(t) > 0
    ensures Inv(ProcessTimes(t, Startable(t)))
  {
    ProcessTimesEffect(t, Startable(t));
  }

  lemma SetMaxInv(s: State, n: int)
    requires Inv(s)
    ensures Inv(Apply(s, SetMax(n)))
  {
    var t := s.(max := Clamp(n));
    OtherLimit(s, n);
    SetMaxIs(s, n);
    if Startable(t) > 0 {
      StartedAll(t);
    }
  }

  lemma InFlightNotPending(s: State, id: nat)
    requires Inv(s) && id in s.inFlight
    ensures id !in PendingIds(s.queue)
    ensures forall i :: 0 <= i < |s.queue| && s.queue[i].id == id ==> !s.queue[i].status.Pending?
  {
    assert id in s.started;
    PendingIdsAre(s.queue);
    assert !IsPending(s.queue, id);
  }

  /** Neither the end of an upload call nor any change of a started item touches the pending list. */
  lemma SettledPending(s: State, id: nat, ok: bool)
    requires Inv(s) && id in s.inFlight
    ensures PendingIds(MarkSettled(s.queue, id, ok)) == PendingIds(s.queue)
  {
    InFlightNotPending(s, id);
    PendingAfter(s.queue, MarkSettled(s.queue, id, ok), id);
    WithoutAbsent(PendingIds(s.queue), id);
  }

  /** The state between the end of an upload call and processing the queue. */
  function Ended(s: State, id: nat, ok: bool): State {
    s.(queue := MarkSettled(s.queue, id, ok), active := s.active - 1, inFlight := s.inFlight - {id})
  }

  lemma SettledInv(s: State, id: nat, ok: bool)
    requires Inv(s) && id in s.inFlight
    ensures Bookkeeping(Ended(s, id, ok)) && Ordered(Ended(s, id, ok))
  {
    SettledPending(s, id, ok);
    SameIds(s.queue, Ended(s, id, ok).queue, s.next);
    assert |s.inFlight - {id}| == |s.inFlight| - 1;
  }

  lemma SettleInv(s: State, id: nat, ok: bool)
    requires Inv(s) && id in s.inFlight
    ensures Inv(Apply(s, Settle(id, ok)))
  {
    SettledPending(s, id, ok);
    SettledInv(s, id, ok);
    ProcessEffect(Ended(s, id, ok));
  }

  lemma UpdatePending(s: State, msg: Message)
    requires Inv(s)
    ensures PendingIds(ReceiveAll(s.queue, msg)) ==
            if msg.OtherMessage? then PendingIds(s.queue) else Without(PendingIds(s.queue), msg.job)
  {
    var q := ReceiveAll(s.queue, msg);
    if msg.OtherMessage? {
      assert q == s.queue;
    } else {
      PendingAfter(s.queue, q, msg.job);
    }
  }

  lemma FewerPending(s: State, msg: Message)
    requires Inv(s)
    ensures forall id :: id in PendingIds(ReceiveAll(s.queue, msg)) <==>
                         id in PendingIds(s.queue) && (msg.OtherMessage? || id != msg.job)
  {
    UpdatePending(s, msg);
    if !msg.OtherMessage? { WithoutMembers(PendingIds(s.queue), msg.job); }
  }

  lemma StillSomePending(s: State, msg: Message)
    requires Inv(s)
    ensures PendingIds(ReceiveAll(s.queue, msg)) != [] ==> PendingIds(s.queue) != []
  {
    FewerPending(s, msg);
    var left := PendingIds(ReceiveAll(s.queue, msg));
    assert left == [] || left[0] in left;
  }

  lemma UpdateBookkeeping(s: State, msg: Message)
    requires Inv(s)
    ensures Bookkeeping(Apply(s, Update(msg))) && WorkConserving(Apply(s, Update(msg)))
  {
    StillSomePending(s, msg);
    SameIds(s.queue, ReceiveAll(s.queue, msg), s.next);
  }

  /** The item a message takes out of pending moves to the skipped ones; the others stay. */
  lemma MovedToSkipped(s: State, t: State, gone: set<nat>)
    requires Ordered(s) && t.started == s.started && t.inFlight == s.inFlight && t.next == s.next
    requires t.skipped == s.skipped + gone
    requires forall id :: id in PendingIds(t.queue) <==> id in PendingIds(s.queue) && id !in gone
    requires forall id :: id in gone ==> id in PendingIds(s.queue) && id < s.next
    ensures Ordered(t)
  {
  }

  lemma UpdateOrdered(s: State, msg: Message)
    requires Inv(s)
    ensures Ordered(Apply(s, Update(msg)))
  {
    FewerPending(s, msg);
    PendingIdsAre(s.queue);
    var gone := if !msg.OtherMessage? && msg.job in PendingIds(s.queue) then {msg.job} else {};
    assert forall id :: id in gone ==> IsPending(s.queue, id);
    MovedToSkipped(s, Apply(s, Update(msg)), gone);
  }

  lemma InvStep(s: State, step: Step)
    requires Inv(s) && Enabled(s, step)
    ensures Inv(Apply(s, step))
  {
    match step
    case UseConnection =>
    case Enqueue(size) => EnqueueInv(s, size);
    case SetMax(n) => SetMaxInv(s, n);
    case Settle(id, ok) => SettleInv(s, id, ok);
    case Update(msg) =>
      UpdateBookkeeping(s, msg);
      UpdateOrdered(s, msg);
    case ClearCompleted =>
      KeptItems(s.queue);
      KeptIncrease(s.queue);
  }

  lemma {:induction false} InvRun(s: State, steps: seq<Step>)
    requires Inv(s) && IsRun(s, steps)
    ensures Inv(Final(s, steps))
    decreases |steps|
  {
    if steps != [] {
      InvStep(s, steps[0]);
      InvRun(Apply(s, steps[0]), steps[1..]);
    }
  }

  /** Between any two steps of any run: if something is pending, the limit is used up; `active`
      counts the unfinished upload calls and is at most 10; no upload was started twice and all
      started in the order of enqueueing; and every item ever enqueued is either still pending, or
      was started, or was taken out of pending by a socket message, never two of these. */
  lemma QueueInvariants(steps: seq<Step>)
    requires IsRun(Init(), steps)
    ensures var s := Final(Init(), steps);
            && (PendingIds(s.queue) != [] ==> s.active >= s.max)
            && s.active == |s.inFlight| <= 10
            && Increasing(s.started)
            && forall id :: 0 <= id < s.next ==>
                              && (id in s.started || id in s.skipped || id in PendingIds(s.queue))
                              && !(id in s.started && id in s.skipped)
                              && !(id in s.started && id in PendingIds(s.queue))
                              && !(id in s.skipped && id in PendingIds(s.queue))
  {
    InvRun(Init(), steps);
  }

  // ----- limits and draining -----

  function Rank(s: State): nat
    requires Inv(s)
  {
    2 * |PendingIds(s.queue)| + s.active
  }

  /** How many uploads a step started. */
  function StartedBy(s: State, step: Step): int
    requires Enabled(s, step)
  {
    |Apply(s, step).started| - |s.started|
  }

  lemma SetMaxEffect(s: State, n: int)
    requires Inv(s)
    ensures var t := Apply(s, SetMax(n));
            && s.started <= t.started && t.skipped == s.skipped && t.next == s.next && t.max == Clamp(n)
            && (t.started != s.started ==> t.active <= t.max)
            && 2 * |PendingIds(t.queue)| + t.active + |t.started| == 2 * |PendingIds(s.queue)| + s.active + |s.started|
  {
    var t := s.(max := Clamp(n));
    var k := Startable(t);
    OtherLimit(s, n);
    SetMaxIs(s, n);
    if k > 0 {
      ProcessTimesEffect(t, k);
      TimesAppend(t, k);
      assert |PendingIds(s.queue)[k..]| == |PendingIds(s.queue)| - k;
    }
  }

  lemma SettleEffect(s: State, id: nat, ok: bool)
    requires Inv(s) && id in s.inFlight
    ensures var t := Apply(s, Settle(id, ok));
            && s.started <= t.started
            && (t.started != s.started ==> t.active <= t.max)
            && 2 * |PendingIds(t.queue)| + t.active + |t.started| + 1 ==
               2 * |PendingIds(s.queue)| + s.active + |s.started|
  {
    SettledPending(s, id, ok);
    SettledInv(s, id, ok);
    ProcessEffect(Ended(s, id, ok));
  }

  /** A step that starts uploads ends at or below the limit, and only appends to what was started. */
  lemma StartsWithinLimit(s: State, step: Step)
    requires Inv(s) && Enabled(s, step)
    ensures s.started <= Apply(s, step).started
    ensures s.started != Apply(s, step).started ==> Apply(s, step).active <= Apply(s, step).max
  {
    match step
    case SetMax(n) => SetMaxEffect(s, n);
    case Settle(id, ok) => SettleEffect(s, id, ok);
    case _ =>
  }

  lemma {:induction false} TimesAppend(s: State, n: nat)
    ensures var t := ProcessTimes(s, n); s.started <= t.started && |t.started| - |s.started| == t.active - s.active
  {
    if n > 0 {
      TimesAppend(s, n - 1);
    }
  }

  /** Only enqueueing raises the rank; every upload that is started lowers it, whether a finished one
      or a new limit made room for it, and so does every upload call that ends. */
  lemma RankDescends(s: State, step: Step)
    requires Inv(s) && Enabled(s, step) && !step.Enqueue?
    ensures Inv(Apply(s, step))
    ensures StartedBy(s, step) >= 0
    ensures Rank(Apply(s, step)) + StartedBy(s, step) + (if step.Settle? then 1 else 0) <= Rank(s)
  {
    InvStep(s, step);
    match step
    case UseConnection =>
    case SetMax(n) => SetMaxEffect(s, n);
    case Settle(id, ok) => SettleEffect(s, id, ok);
    case Update(msg) =>
      UpdatePending(s, msg);
      if !msg.OtherMessage? { WithoutMembers(PendingIds(s.queue), msg.job); }
    case ClearCompleted =>
      KeptItems(s.queue);
  }

  function Settles(steps: seq<Step>): nat {
    if steps == [] then 0 else (if steps[0].Settle? then 1 else 0) + Settles(steps[1..])
  }

  /** Once enqueueing stops, the uploads that can still start and the upload calls that can still
      end are together bounded by the rank, and as soon as none is in flight nothing is pending
      either. */
  lemma {:induction false} QueueDrains(s: State, steps: seq<Step>)
    requires Inv(s) && IsRun(s, steps) && forall step :: step in steps ==> !step.Enqueue?
    ensures s.started <= Final(s, steps).started
    ensures |Final(s, steps).started| - |s.started| + Settles(steps) <= Rank(s)
    ensures Final(s, steps).inFlight == {} ==> PendingIds(Final(s, steps).queue) == []
    decreases |steps|
  {
    if steps != [] {
      RankDescends(s, steps[0]);
      StartsWithinLimit(s, steps[0]);
      QueueDrains(Apply(s, steps[0]), steps[1..]);
    }
  }

  /** The server's messages name jobs whose upload call was made. */
  predicate Honest(s: State, step: Step) {
    step.Update? && !step.msg.OtherMessage? ==> step.msg.job in s.started
  }

  predicate IsHonestRun(s: State, steps: seq<Step>)
    decreases |steps|
  {
    steps == [] || (Enabled(s, steps[0]) && Honest(s, steps[0]) && IsHonestRun(Apply(s, steps[0]), steps[1..]))
  }

  lemma {:induction false} NothingSkipped(s: State, steps: seq<Step>)
    requires Inv(s) && s.skipped == {} && IsHonestRun(s, steps)
    ensures IsRun(s, steps) && Inv(Final(s, steps)) && Final(s, steps).skipped == {}
    decreases |steps|
  {
    if steps != [] {
      InvStep(s, steps[0]);
      if steps[0].SetMax? { SetMaxEffect(s, steps[0].n); }
      NothingSkipped(Apply(s, steps[0]), steps[1..]);
    }
  }

  lemma IncreasingLast(init: seq<nat>, last: nat, n: nat)
    requires n > 0 && Increasing(init + [last]) && forall x :: x in init + [last] <==> 0 <= x < n
    ensures last == n - 1 && Increasing(init) && forall x :: x in init <==> 0 <= x < n - 1
  {
    var ids := init + [last];
    assert n - 1 in ids && last in ids;
    forall x | x in init
      ensures x < last
    {
      var i :| 0 <= i < |init| && init[i] == x;
      assert ids[i] < ids[|init|];
    }
    forall i, j | 0 <= i < j < |init|
      ensures init[i] < init[j]
    {
      assert ids[i] < ids[j];
    }
    assert forall x :: x in ids <==> x in init || x == last;
  }

  lemma {:induction false} IncreasingCoversAll(ids: seq<nat>, n: nat)
    requires Increasing(ids) && forall x :: x in ids <==> 0 <= x < n
    ensures |ids| == n && forall i :: 0 <= i < n ==> ids[i] == i
  {
    assert ids == [] || ids[0] in ids;
    if n > 0 {
      assert n - 1 in ids;
      var m := |ids| - 1;
      assert ids == ids[..m] + [ids[m]];
      IncreasingLast(ids[..m], ids[m], n);
      IncreasingCoversAll(ids[..m], n - 1);
      assert forall i :: 0 <= i < m ==> ids[i] == ids[..m][i];
    }
  }

  /** With such messages, once no upload call is in flight every item ever enqueued has been
      uploaded exactly once, in the order of enqueueing. */
  lemma EverythingUploadedInOrder(steps: seq<Step>)
    requires IsHonestRun(Init(), steps)
    ensures IsRun(Init(), steps)
    ensures var s := Final(Init(), steps);
            s.inFlight == {} ==> |s.started| == s.next && forall i :: 0 <= i < s.next ==> s.started[i] == i
  {
    NothingSkipped(Init(), steps);
    var s := Final(Init(), steps);
    if s.inFlight == {} {
      IncreasingCoversAll(s.started, s.next);
    }
  }

  // ----- what is shown of an item -----

  /** The step says something about the item: its upload call ended, or a message names it. */
  predicate Tells(step: Step, id: nat) {
    || (step.Settle? && step.id == id)
    || (step.Update? && !step.msg.OtherMessage? && step.msg.job == id)
  }

  /** What a run tells of an item once it has been enqueued, after what was told before. */
  function Told(s: State, steps: seq<Step>, id: nat, told: seq<Step>): seq<Step>
    requires IsRun(s, steps)
    decreases |steps|
  {
    if steps == [] then told
    else Told(Apply(s, steps[0]), steps[1..], id, ToldNext(s, steps[0], id, told))
  }

  function ToldNext(s: State, step: Step, id: nat, told: seq<Step>): seq<Step> {
    if id < s.next && Tells(step, id) then told + [step] else told
  }

  predicate SaysDone(step: Step) { step.Update? && step.msg.UploadDone? }

  predicate SaysError(step: Step) { step.Update? && step.msg.UploadError? }

  /** What is shown after all that was told: the last word counts, except that the end of the call
      does not take back what the message just before it said. */
  function Shown(told: seq<Step>, called: bool): Status {
    if told == [] then (if called then Uploading else Pending)
    else
      var last := told[|told| - 1];
      match last
      case Update(UploadDone(_)) => Finished
      case Update(UploadError(_)) => Failed
      case Settle(_, true) => if |told| > 1 && SaysError(told[|told| - 2]) then Failed else Finished
      case Settle(_, false) => if |told| > 1 && SaysDone(told[|told| - 2]) then Finished else Failed
      case _ => Uploading
  }

  predicate CallEnded(told: seq<Step>) { exists i :: 0 <= i < |told| && told[i].Settle? }

  /** The size shown: the last one a progress message gave, else the file's. */
  function SizeShown(told: seq<Step>, fileSize: int): int {
    if told == [] then fileSize
    else
      var last := told[|told| - 1];
      if last.Update? && last.msg.UploadProgress? && last.msg.size.Some? then last.msg.size.value
      else SizeShown(told[..|told| - 1], fileSize)
  }

  predicate ProgressShown(q: Item, told: seq<Step>) {
    && (told == [] ==> q.progress == 0)
    && (q.status.Finished? ==> q.progress == if q.size != 0 then q.size else q.fileSize)
    && (told != [] ==>
          var last := told[|told| - 1];
          last.Update? && last.msg.UploadProgress? && last.msg.progress.Some? ==> q.progress == last.msg.progress.value)
  }

  predicate Shows(q: Item, told: seq<Step>, called: bool) {
    q.status == Shown(told, called) && q.size == SizeShown(told, q.fileSize) && ProgressShown(q, told)
  }

  predicate CalledOnce(told: seq<Step>) {
    forall i, j :: 0 <= i < j < |told| ==> !(told[i].Settle? && told[j].Settle?)
  }

  predicate ItemLaw(s: State, id: nat, told: seq<Step>) {
    && (id >= s.next ==> told == [])
    && (CallEnded(told) <==> id in s.started && id !in s.inFlight) && CalledOnce(told)
    && forall q :: q in s.queue && q.id == id ==> Shows(q, told, id in s.started)
  }

  lemma ProcessShows(s: State, id: nat, told: seq<Step>)
    requires Bookkeeping(s) && Ordered(s) && ItemLaw(s, id, told)
    ensures ItemLaw(Process(s), id, told)
  {
    var pending := PendingIds(s.queue);
    if s.active < s.max && pending != [] {
      var t := Process(s);
      PendingIdsAre(s.queue);
      assert pending[0] in pending;
      var i :| 0 <= i < |s.queue| && s.queue[i].id == pending[0] && s.queue[i].status.Pending?;
      assert s.queue[i] in s.queue;
      assert pending[0] !in s.started;
      assert pending[0] == id ==> told == [];
      forall q | q in t.queue && q.id == id
        ensures Shows(q, told, id in t.started)
      {
        var k :| 0 <= k < |t.queue| && t.queue[k] == q;
        assert s.queue[k] in s.queue;
      }
    }
  }

  ghost predicate Lawful(s: State, id: nat, told: seq<Step>) { Bookkeeping(s) && Ordered(s) && ItemLaw(s, id, told) }

  lemma ProcessLawful(s: State, id: nat, told: seq<Step>) returns (t: State)
    requires Lawful(s, id, told)
    ensures t == Process(s) && Lawful(t, id, told)
  {
    t := Process(s);
    ProcessShows(s, id, told);
    ProcessEffect(s);
  }

  lemma {:induction false} ProcessedShows(s: State, n: nat, id: nat, told: seq<Step>) returns (now: State)
    requires Lawful(s, id, told)
    ensures now == ProcessTimes(s, n) && Lawful(now, id, told)
  {
    now := s;
    if n > 0 {
      var before := ProcessedShows(s, n - 1, id, told);
      now := ProcessLawful(before, id, told);
    }
  }

  lemma EnqueueShows(s: State, size: int, id: nat, told: seq<Step>)
    requires Inv(s) && ItemLaw(s, id, told)
    ensures ItemLaw(Apply(s, Enqueue(size)), id, told)
  {
    var t := Appended(s, size);
    AppendedBookkeeping(s, size);
    AppendedOrdered(s, size);
    assert s.next !in s.started;
    ProcessShows(t, id, told);
  }

  lemma SetMaxShows(s: State, n: int, id: nat, told: seq<Step>)
    requires Inv(s) && ItemLaw(s, id, told)
    ensures ItemLaw(Apply(s, SetMax(n)), id, told)
  {
    var t := s.(max := Clamp(n));
    OtherLimit(s, n);
    SetMaxIs(s, n);
    if Startable(t) > 0 {
      var now := ProcessedShows(t, Startable(t), id, told);
    }
  }

  /** One item at the end of its call. */
  lemma SettledShows(q: Item, ok: bool, told: seq<Step>)
    requires Shows(q, told, true) && !CallEnded(told)
    ensures Shows(MarkSettled([q], q.id, ok)[0], told + [Settle(q.id, ok)], true)
  {
    var more := told + [Settle(q.id, ok)];
    assert more[..|told|] == told;
    assert told != [] ==> more[|more| - 2] == told[|told| - 1] && !told[|told| - 1].Settle?;
  }

  lemma SameCalls(told: seq<Step>, step: Step)
    requires CalledOnce(told) && (step.Settle? ==> !CallEnded(told))
    ensures CalledOnce(told + [step]) && (CallEnded(told + [step]) <==> CallEnded(told) || step.Settle?)
  {
    var more := told + [step];
    assert more[|told|] == step && forall i :: 0 <= i < |told| ==> more[i] == told[i];
  }

  lemma EndedShows(s: State, which: nat, ok: bool, id: nat, told: seq<Step>)
    requires Inv(s) && which in s.inFlight && ItemLaw(s, id, told)
    ensures ItemLaw(Ended(s, which, ok), id, ToldNext(s, Settle(which, ok), id, told))
  {
    var t := Ended(s, which, ok);
    var more := ToldNext(s, Settle(which, ok), id, told);
    assert which in s.started;
    if which == id { SameCalls(told, Settle(which, ok)); }
    forall q | q in t.queue && q.id == id
      ensures Shows(q, more, id in t.started)
    {
      var k :| 0 <= k < |t.queue| && t.queue[k] == q;
      assert s.queue[k] in s.queue;
      if which == id { SettledShows(s.queue[k], ok, told); }
    }
  }

  lemma SettleShows(s: State, which: nat, ok: bool, id: nat, told: seq<Step>)
    requires Inv(s) && which in s.inFlight && ItemLaw(s, id, told)
    ensures ItemLaw(Apply(s, Settle(which, ok)), id, ToldNext(s, Settle(which, ok), id, told))
  {
    EndedShows(s, which, ok, id, told);
    SettledPending(s, which, ok);
    SettledInv(s, which, ok);
    ProcessShows(Ended(s, which, ok), id, ToldNext(s, Settle(which, ok), id, told));
  }

  lemma ReceivedShows(q: Item, msg: Message, told: seq<Step>, called: bool)
    requires Shows(q, told, called) && !msg.OtherMessage? && msg.job == q.id
    ensures Shows(Receive(q, msg), told + [Update(msg)], called)
  {
    assert (told + [Update(msg)])[..|told|] == told;
  }

  lemma UpdateShows(s: State, msg: Message, id: nat, told: seq<Step>)
    requires Inv(s) && ItemLaw(s, id, told)
    ensures ItemLaw(Apply(s, Update(msg)), id, ToldNext(s, Update(msg), id, told))
  {
    var t := Apply(s, Update(msg));
    var more := ToldNext(s, Update(msg), id, told);
    SameCalls(told, Update(msg));
    forall q | q in t.queue && q.id == id
      ensures Shows(q, more, id in t.started)
    {
      var k :| 0 <= k < |t.queue| && t.queue[k] == q;
      assert s.queue[k] in s.queue;
      if !msg.OtherMessage? && msg.job == id { ReceivedShows(s.queue[k], msg, told, id in s.started); }
    }
  }

  lemma ItemLawStep(s: State, step: Step, id: nat, told: seq<Step>)
    requires Inv(s) && Enabled(s, step) && ItemLaw(s, id, told)
    ensures ItemLaw(Apply(s, step), id, ToldNext(s, step, id, told))
  {
    match step
    case UseConnection =>
    case Enqueue(size) => EnqueueShows(s, size, id, told);
    case SetMax(n) => SetMaxShows(s, n, id, told);
    case Settle(which, ok) => SettleShows(s, which, ok, id, told);
    case Update(msg) => UpdateShows(s, msg, id, told);
    case ClearCompleted => KeptItems(s.queue);
  }

  lemma {:induction false} ItemLawRun(s: State, steps: seq<Step>, id: nat, told: seq<Step>)
    requires Inv(s) && IsRun(s, steps) && ItemLaw(s, id, told)
    ensures ItemLaw(Final(s, steps), id, Told(s, steps, id, told))
    decreases |steps|
  {
    if steps != [] {
      InvStep(s, steps[0]);
      ItemLawStep(s, steps[0], id, told);
      ItemLawRun(Apply(s, steps[0]), steps[1..], id, ToldNext(s, steps[0], id, told));
    }
  }

  /** In every run, what the queue shows of an item follows from what was told of it alone: its
      status from the last word, its size and progress from the last that gave them, and the full
      size once it is finished. */
  lemma ShownAsTold(steps: seq<Step>, q: Item)
    requires IsRun(Init(), steps) && q in Final(Init(), steps).queue
    ensures Shows(q, Told(Init(), steps, q.id, []), q.id in Final(Init(), steps).started)
  {
    ItemLawRun(Init(), steps, q.id, []);
  }

  lemma {:induction false} ToldOf(s: State, steps: seq<Step>, id: nat, told: seq<Step>)
    requires Inv(s) && IsRun(s, steps)
    ensures told <= Told(s, steps, id, told)
    ensures forall x :: x in Told(s, steps, id, told) ==> x in told || (x in steps && Tells(x, id))
    ensures forall x :: x in steps && x.Settle? && x.id == id ==> x in Told(s, steps, id, told)
    decreases |steps|
  {
    if steps != [] {
      var more := ToldNext(s, steps[0], id, told);
      InvStep(s, steps[0]);
      ToldOf(Apply(s, steps[0]), steps[1..], id, more);
      assert steps == [steps[0]] + steps[1..];
      assert steps[0].Settle? && steps[0].id == id ==> more[|more| - 1] == steps[0];
    }
  }

  /** No message of the run names the item. */
  predicate Unnamed(steps: seq<Step>, id: nat) {
    forall i :: 0 <= i < |steps| && steps[i].Update? && !steps[i].msg.OtherMessage? ==> steps[i].msg.job != id
  }

  lemma OneEnd(told: seq<Step>, a: Step, b: Step)
    requires CalledOnce(told) && a in told && b in told && a.Settle? && b.Settle?
    ensures a == b
  {
    var i :| 0 <= i < |told| && told[i] == a;
    var j :| 0 <= j < |told| && told[j] == b;
    assert i == j || i < j || j < i;
  }

  lemma {:induction false} SizeUntouched(told: seq<Step>, fileSize: int)
    requires forall x :: x in told ==> x.Settle?
    ensures SizeShown(told, fileSize) == fileSize
  {
    if told != [] {
      assert told[|told| - 1] in told;
      SizeUntouched(told[..|told| - 1], fileSize);
    }
  }

  lemma OnlyCalls(q: Item, told: seq<Step>, called: bool)
    requires Shows(q, told, called) && forall x :: x in told ==> x.Settle? && x.id == q.id
    ensures q.size == q.fileSize
    ensures told == [] ==> q.status == (if called then Uploading else Pending) && q.progress == 0
    ensures told != [] ==> told[|told| - 1] == Settle(q.id, q.status.Finished?)
    ensures told != [] ==> q.status.Finished? || q.status.Failed?
  {
    SizeUntouched(told, q.fileSize);
    if told != [] {
      assert told[|told| - 1] in told;
      assert |told| > 1 ==> told[|told| - 2] in told;
    }
  }

  /** What was told is how the one call ended, if it did. */
  lemma EndTold(q: Item, told: seq<Step>, called: bool)
    requires Shows(q, told, called) && CalledOnce(told) && forall x :: x in told ==> x.Settle? && x.id == q.id
    ensures forall ok :: Settle(q.id, ok) in told <==> told != [] && q.status.Finished? == ok
    ensures CallEnded(told) <==> told != []
  {
    OnlyCalls(q, told, called);
    if told != [] {
      assert told[|told| - 1] in told;
      forall ok | Settle(q.id, ok) in told
        ensures ok == q.status.Finished?
      {
        OneEnd(told, Settle(q.id, ok), told[|told| - 1]);
      }
    }
  }

  lemma OnlyItsCalls(steps: seq<Step>, id: nat)
    requires IsRun(Init(), steps) && Unnamed(steps, id)
    ensures var told := Told(Init(), steps, id, []);
            && (forall x :: x in told ==> x.Settle? && x.id == id)
            && (forall ok :: Settle(id, ok) in told <==> Settle(id, ok) in steps)
  {
    ToldOf(Init(), steps, id, []);
  }

  /** An item that no message names is shown as its call stands: pending before it, uploading while
      it is in flight, and then finished, with its full size, or failed, as the call ended. */
  lemma ShownAsCalled(steps: seq<Step>, q: Item)
    requires IsRun(Init(), steps) && q in Final(Init(), steps).queue && Unnamed(steps, q.id)
    ensures var s := Final(Init(), steps);
            && (q.status.Pending? <==> q.id !in s.started)
            && (q.status.Uploading? <==> q.id in s.inFlight)
            && (q.status.Finished? <==> Settle(q.id, true) in steps)
            && (q.status.Failed? <==> Settle(q.id, false) in steps)
            && q.size == q.fileSize
            && (q.status.Finished? ==> q.progress == q.fileSize)
            && (q.status.Pending? || q.status.Uploading? ==> q.progress == 0)
  {
    var s, told := Final(Init(), steps), Told(Init(), steps, q.id, []);
    ItemLawRun(Init(), steps, q.id, []);
    OnlyItsCalls(steps, q.id);
    OnlyCalls(q, told, q.id in s.started);
    EndTold(q, told, q.id in s.started);
    InFlightStarted(steps, q.id);
  }

  lemma InFlightStarted(steps: seq<Step>, id: nat)
    requires IsRun(Init(), steps)
    ensures id in Final(Init(), steps).inFlight ==> id in Final(Init(), steps).started
  {
    InvRun(Init(), steps);
  }

  // ----- what is in the queue -----

  predicate Over(q: Item) { q.status.Finished? || q.status.Failed? }

  /** Every item of the one list is in the other, with its name and its file. */
  predicate SameFiles(a: seq<Item>, b: seq<Item>) {
    && |a| == |b|
    && forall i :: 0 <= i < |a| ==> a[i].id == b[i].id && a[i].fileSize == b[i].fileSize
  }

  lemma {:induction false} ProcessTimesFiles(s: State, n: int)
    ensures SameFiles(s.queue, ProcessTimes(s, n).queue)
    decreases n
  {
    if n > 0 { ProcessTimesFiles(s, n - 1); }
  }

  lemma {:induction false} KeptExactly(queue: seq<Item>)
    ensures forall q :: q in KeepUnfinished(queue) <==> q in queue && !Over(q)
  {
    if queue != [] {
      KeptExactly(queue[1..]);
      assert queue == [queue[0]] + queue[1..];
    }
  }

  lemma ProcessFiles(s: State)
    ensures SameFiles(s.queue, Process(s).queue)
  {
  }

  lemma FilesStay(s: State, step: Step)
    requires Enabled(s, step) && !step.Enqueue? && !step.ClearCompleted?
    ensures SameFiles(s.queue, Apply(s, step).queue)
  {
    match step
    case SetMax(n) =>
      var t := s.(max := Clamp(n));
      ProcessTimesFiles(t, Min(t.max - t.active, |PendingIds(t.queue)|));
    case Settle(id, ok) => ProcessFiles(Ended(s, id, ok));
    case _ =>
  }

  lemma FileAdded(s: State, size: int)
    ensures var queue := Apply(s, Enqueue(size)).queue;
            && |queue| == |s.queue| + 1 && SameFiles(s.queue, queue[..|s.queue|])
            && queue[|s.queue|].id == s.next && queue[|s.queue|].fileSize == size
  {
    ProcessFiles(Appended(s, size));
  }

  /** Nothing but clearing takes items out of the queue, and clearing takes exactly those that are
      finished or failed; enqueueing adds one at the end, and every other step keeps all in place. */
  lemma QueueKeeps(s: State, step: Step)
    requires Enabled(s, step)
    ensures var queue := Apply(s, step).queue;
            && (step.Enqueue? ==>
                  && |queue| == |s.queue| + 1 && SameFiles(s.queue, queue[..|s.queue|])
                  && queue[|s.queue|].id == s.next && queue[|s.queue|].fileSize == step.size)
            && (step.ClearCompleted? ==> forall q :: q in queue <==> q in s.queue && !Over(q))
            && (!step.Enqueue? && !step.ClearCompleted? ==> SameFiles(s.queue, queue))
  {
    match step
    case Enqueue(size) => FileAdded(s, size);
    case ClearCompleted => KeptExactly(s.queue);
    case _ => FilesStay(s, step);
  }

  /** The sizes of the files enqueued, in order. */
  function Enqueued(steps: seq<Step>): seq<int> {
    if steps == [] then []
    else (if steps[0].Enqueue? then [steps[0].size] else []) + Enqueued(steps[1..])
  }

  predicate FilesOf(queue: seq<Item>, sizes: seq<int>) {
    forall q :: q in queue ==> q.id < |sizes| && q.fileSize == sizes[q.id]
  }

  lemma NextNumber(s: State, step: Step)
    requires Inv(s) && Enabled(s, step)
    ensures Apply(s, step).next == s.next + if step.Enqueue? then 1 else 0
  {
    if step.SetMax? { SetMaxEffect(s, step.n); }
  }

  ghost predicate Numbered(s: State, sizes: seq<int>) { |sizes| == s.next && FilesOf(s.queue, sizes) }

  function With(sizes: seq<int>, step: Step): seq<int> { sizes + if step.Enqueue? then [step.size] else [] }

  lemma FilesStep(s: State, step: Step, sizes: seq<int>)
    requires Inv(s) && Enabled(s, step) && Numbered(s, sizes)
    ensures Numbered(Apply(s, step), With(sizes, step))
  {
    var t, more := Apply(s, step), With(sizes, step);
    QueueKeeps(s, step);
    NextNumber(s, step);
    if !step.ClearCompleted? {
      forall q | q in t.queue
        ensures q.id < |more| && q.fileSize == more[q.id]
      {
        var k :| 0 <= k < |t.queue| && t.queue[k] == q;
        if k < |s.queue| { assert s.queue[k] in s.queue; }
      }
    }
  }

  lemma EnqueuedHead(sizes: seq<int>, steps: seq<Step>)
    requires steps != []
    ensures sizes + Enqueued(steps) == With(sizes, steps[0]) + Enqueued(steps[1..])
  {
  }

  lemma {:induction false} FilesRun(s: State, steps: seq<Step>, sizes: seq<int>)
    requires Inv(s) && IsRun(s, steps) && Numbered(s, sizes)
    ensures Numbered(Final(s, steps), sizes + Enqueued(steps))
    decreases |steps|
  {
    if steps == [] {
      assert sizes + Enqueued(steps) == sizes;
    } else {
      EnqueuedHead(sizes, steps);
      InvStep(s, steps[0]);
      FilesStep(s, steps[0], sizes);
      FilesRun(Apply(s, steps[0]), steps[1..], With(sizes, steps[0]));
    }
  }

  /** Every item keeps the file it was enqueued with. */
  lemma ItemsKeepFiles(steps: seq<Step>)
    requires IsRun(Init(), steps)
    ensures |Enqueued(steps)| == Final(Init(), steps).next
    ensures FilesOf(Final(Init(), steps).queue, Enqueued(steps))
  {
    FilesRun(Init(), steps, []);
    assert [] + Enqueued(steps) == Enqueued(steps);
  }

  predicate Connects(step: Step) { step.UseConnection? || step.Enqueue? }

  lemma ConnectedStep(s: State, step: Step)
    requires Inv(s) && Enabled(s, step)
    ensures Apply(s, step).connected <==> s.connected || Connects(step)
  {
    match step
    case SetMax(n) => ProcessTimesConnected(s.(max := Clamp(n)), Startable(s.(max := Clamp(n))));
    case _ =>
  }

  lemma {:induction false} ProcessTimesConnected(s: State, n: int)
    ensures ProcessTimes(s, n).connected == s.connected
    decreases n
  {
    if n > 0 { ProcessTimesConnected(s, n - 1); }
  }

  /** A connection is known exactly once one was used or something was enqueued. */
  lemma {:induction false} ConnectedExactly(s: State, steps: seq<Step>)
    requires Inv(s) && IsRun(s, steps)
    ensures Final(s, steps).connected <==> s.connected || exists step :: step in steps && Connects(step)
    decreases |steps|
  {
    if steps != [] {
      InvStep(s, steps[0]);
      ConnectedStep(s, steps[0]);
      ConnectedExactly(Apply(s, steps[0]), steps[1..]);
      assert steps == [steps[0]] + steps[1..];
    }
  }

  /** The limit in force is the one last asked for, if it lies between 1 and 10, and else the nearer
      end. */
  lemma LimitTaken(s: State, n: int)
    requires Inv(s)
    ensures var max := Apply(s, SetMax(n)).max;
            && (1 <= n <= 10 ==> max == n) && (n < 1 ==> max == 1) && (n > 10 ==> max == 10)
  {
    SetMaxEffect(s, n);
  }

  // ----- the store -----

  class UploadQueueStore {
    var maxConcurrent: int
    var queue: seq<Item>
    var activeCount: int
    var hasConnection: bool
    var next: nat
    var inFlight: set<nat>
    ghost var started: seq<nat>
    ghost var skipped: set<nat>

    ghost function View(): State
      reads this
    {
      State(maxConcurrent, queue, activeCount, hasConnection, inFlight, started, skipped, next)
    }

    constructor ()
      ensures View() == Init() && Inv(View())
    {
      maxConcurrent, queue, activeCount, hasConnection := 3, [], 0, false;
      next, inFlight, started, skipped := 0, {}, [], {};
    }

    /** `processQueue` up to its await. */
    method ProcessQueue()
      modifies this
      ensures View() == Process(old(View()))
    {
      var pending := PendingIds(queue);
      if activeCount >= maxConcurrent || |pending| == 0 {
        return;
      }
      var id := pending[0];
      activeCount := activeCount + 1;
      queue := MarkUploading(queue, id);
      inFlight := inFlight + {id};
      started := started + [id];
    }

    method SetMaxConcurrent(n: int)
      modifies this
      ensures View() == Apply(old(View()), SetMax(n))
    {
      maxConcurrent := if n < 1 then 1 else if n > 10 then 10 else n;
      if !hasConnection {
        return;
      }
      ghost var start := View();
      var pending := PendingIds(queue);
      var slots := maxConcurrent - activeCount;
      var toStart := if slots < |pending| then slots else |pending|;
      var i := 0;
      while i < toStart
        invariant 0 <= i && (i <= toStart || i == 0)
        invariant View() == ProcessTimes(start, i)
      {
        ProcessQueue();
        i := i + 1;
      }
    }

    method EnqueueFile(size: int)
      modifies this
      ensures View() == Apply(old(View()), Enqueue(size))
    {
      hasConnection := true;
      queue := queue + [Item(next, Pending, 0, size, size)];
      next := next + 1;
      ProcessQueue();
    }

    /** The continuation after an upload call, whichever way it ended. */
    method UploadSettled(id: nat, ok: bool)
      requires id in inFlight
      modifies this
      ensures View() == Apply(old(View()), Settle(id, ok))
    {
      queue := MarkSettled(queue, id, ok);
      activeCount := activeCount - 1;
      inFlight := inFlight - {id};
      ProcessQueue();
    }

    method UpdateFromWS(msg: Message)
      modifies this
      ensures View() == Apply(old(View()), Update(msg))
    {
      if !msg.OtherMessage? && msg.job in PendingIds(queue) {
        skipped := skipped + {msg.job};
      }
      queue := ReceiveAll(queue, msg);
    }

    method ClearCompletedItems()
      modifies this
      ensures View() == Apply(old(View()), ClearCompleted)
    {
      queue := KeepUnfinished(queue);
    }
  }
}
