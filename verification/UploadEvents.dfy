/** From an upload's reports to what browsers are sent: a bounded channel that drops what does not
    fit, one consumer, and the hub's table of jobs. Every lock region and channel operation is a
    step. */
module UploadEvents {
  import opened UploadCopy

  const CAPACITY: nat := 100

  datatype Consumer =
    | Idle
    | Received(event: Event)
    | Found(event: Event, conn: string)        // connection looked up
    | Unregistered(event: Event, conn: string) // and job removed, after a last event

  datatype Message = Message(conn: string, event: Event)

  /** An upload under way: the connection it was started for, all it will report, how much of that
      it has reported so far and how much of that did not fit. */
  datatype Upload = Upload(conn: string, reports: seq<Event>, sent: nat, dropped: nat)

  datatype State = State(
    channel: seq<Event>,
    consumer: Consumer,
    jobs: map<string, string>,
    log: seq<Message>,
    uploads: map<string, Upload>)

  datatype Step =
    | Start(job: string, conn: string, reports: seq<Event>)   // RegisterJob, before the upload
    | Notify(job: string)
    | Receive
    | Lookup
    | Unregister
    | Broadcast

  function Init(): State { State([], Idle, map[], [], map[]) }

  /** What an upload may report: its own events, ordered. */
  ghost predicate Reportable(job: string, reports: seq<Event>) {
    Ordered(reports) && forall i :: 0 <= i < |reports| ==> reports[i].job == job
  }

  predicate IsLast(e: Event) { e.status != Uploading }

  /** Job ids are not reused, and a connection id is never empty. */
  ghost predicate Enabled(s: State, step: Step) {
    match step
    case Start(job, conn, reports) => job !in s.uploads && conn != "" && Reportable(job, reports)
    case Notify(job) => job in s.uploads && s.uploads[job].sent < |s.uploads[job].reports|
    case Receive => s.consumer.Idle? && s.channel != []
    case Lookup => s.consumer.Received?
    case Unregister => s.consumer.Found? && IsLast(s.consumer.event)
    case Broadcast => s.consumer.Unregistered? || (s.consumer.Found? && !IsLast(s.consumer.event))
  }

  ghost function Apply(s: State, step: Step): State
    requires Enabled(s, step)
  {
    match step
    case Start(job, conn, reports) =>
      s.(jobs := s.jobs[job := conn], uploads := s.uploads[job := Upload(conn, reports, 0, 0)])
    case Notify(job) => NotifyNext(s, job)
    case Receive => s.(consumer := Received(s.channel[0]), channel := s.channel[1..])
    case Lookup =>
      var e := s.consumer.event;
      s.(consumer := if e.job in s.jobs then Found(e, s.jobs[e.job]) else Idle)
    case Unregister =>
      s.(consumer := Unregistered(s.consumer.event, s.consumer.conn), jobs := s.jobs - {s.consumer.event.job})
    case Broadcast =>
      s.(consumer := Idle, log := s.log + [Message(s.consumer.conn, s.consumer.event)])
  }

  ghost function NotifyNext(s: State, job: string): State
    requires Enabled(s, Notify(job))
  {
    var u := s.uploads[job];
    if |s.channel| < CAPACITY then
      s.(channel := s.channel + [u.reports[u.sent]], uploads := s.uploads[job := u.(sent := u.sent + 1)])
    else
      s.(uploads := s.uploads[job := u.(sent := u.sent + 1, dropped := u.dropped + 1)])
  }

  // ----- one job's events -----

  function Of(events: seq<Event>, job: string): seq<Event> {
    if events == [] then []
    else
      var n := |events| - 1;
      Of(events[..n], job) + if events[n].job == job then [events[n]] else []
  }

  lemma OfMore(events: seq<Event>, e: Event, job: string)
    ensures Of(events + [e], job) == Of(events, job) + if e.job == job then [e] else []
  {
    assert (events + [e])[..|events|] == events;
  }

  lemma {:induction false} OfHead(e: Event, events: seq<Event>, job: string)
    ensures Of([e] + events, job) == (if e.job == job then [e] else []) + Of(events, job)
  {
    if events == [] {
      assert [e] + events == events + [e];
      OfMore(events, e, job);
    } else {
      var n := |events| - 1;
      var front, last := events[..n], events[n];
      OfHead(e, front, job);
      assert events == front + [last];
      assert [e] + (front + [last]) == ([e] + front) + [last];
      OfMore([e] + front, last, job);
      OfMore(front, last, job);
    }
  }

  /** What the clients of a job's connection were sent of it. */
  function Seen(log: seq<Message>, job: string): seq<Event> {
    if log == [] then []
    else
      var n := |log| - 1;
      Seen(log[..n], job) + if log[n].event.job == job then [log[n].event] else []
  }

  function InHand(c: Consumer, job: string): seq<Event> {
    if !c.Idle? && c.event.job == job then [c.event] else []
  }

  /** Everything of a job that was seen or may still be, in order. */
  function Alive(s: State, job: string): seq<Event> {
    Seen(s.log, job) + InHand(s.consumer, job) + Of(s.channel, job)
  }

  // ----- subsequences -----

  predicate IsSubseq<T(==)>(a: seq<T>, b: seq<T>)
    decreases |b|
  {
    || a == []
    || (b != [] &&
        (|| (a[|a| - 1] == b[|b| - 1] && IsSubseq(a[..|a| - 1], b[..|b| - 1]))
         || IsSubseq(a, b[..|b| - 1])))
  }

  lemma SubseqMore<T>(a: seq<T>, b: seq<T>, e: T)
    requires IsSubseq(a, b)
    ensures IsSubseq(a + [e], b + [e]) && IsSubseq(a, b + [e])
  {
    assert (a + [e])[..|a|] == a && (b + [e])[..|b|] == b;
  }

  lemma {:induction false} SubseqPrefix<T>(x: seq<T>, y: seq<T>, b: seq<T>)
    requires IsSubseq(x + y, b)
    ensures IsSubseq(x, b)
    decreases |b|
  {
    var a := x + y;
    if y == [] {
      assert a == x;
    } else {
      var n, m := |b| - 1, |y| - 1;
      if IsSubseq(a, b[..n]) {
        SubseqPrefix(x, y, b[..n]);
      } else {
        assert a[..|a| - 1] == x + y[..m];
        SubseqPrefix(x, y[..m], b[..n]);
      }
    }
  }

  /** What holds of every two elements of a list in order holds of every subsequence's too. */
  lemma {:induction false} SubseqOrdered(a: seq<Event>, b: seq<Event>)
    requires IsSubseq(a, b) && Ordered(b)
    ensures Ordered(a) && forall e :: e in a ==> e in b
    decreases |b|
  {
    if a != [] {
      var n, m := |b| - 1, |a| - 1;
      if IsSubseq(a, b[..n]) {
        SubseqOrdered(a, b[..n]);
      } else {
        SubseqOrdered(a[..m], b[..n]);
        forall i | 0 <= i < m
          ensures MayPrecede(a[i], a[m])
        {
          assert a[..m][i] in b[..n];
          var k :| 0 <= k < n && b[k] == a[i];
        }
        forall i, j | 0 <= i < j < |a|
          ensures MayPrecede(a[i], a[j])
        {
          if j < m { assert a[i] == a[..m][i] && a[j] == a[..m][j]; }
        }
        assert a == a[..m] + [a[m]];
      }
    }
  }

  lemma {:induction false} SubseqShorter<T>(a: seq<T>, b: seq<T>)
    requires IsSubseq(a, b)
    ensures |a| <= |b| && (|a| == |b| ==> a == b)
    decreases |b|
  {
    if a != [] {
      var n, m := |b| - 1, |a| - 1;
      if IsSubseq(a, b[..n]) {
        SubseqShorter(a, b[..n]);
      } else {
        SubseqShorter(a[..m], b[..n]);
        assert a == a[..m] + [a[m]] && b == b[..n] + [b[n]];
      }
    }
  }

  // ----- the invariant -----

  /** What is alive of an upload: its reports in order, none lost but those that did not fit. */
  ghost predicate InOrder(u: Upload, job: string, alive: seq<Event>) {
    && u.sent <= |u.reports| && Reportable(job, u.reports)
    && IsSubseq(alive, u.reports[..u.sent])
    && |alive| + u.dropped == u.sent
  }

  /** A job stays registered until its last event has come through the lookup. */
  ghost predicate LongEnough(s: State, j: string)
    requires j in s.uploads
  {
    j !in s.jobs ==>
      && Of(s.channel, j) == [] && !(s.consumer.Received? && s.consumer.event.job == j)
      && s.uploads[j].sent == |s.uploads[j].reports|
  }

  ghost predicate JobInv(s: State, j: string)
    requires j in s.uploads
  {
    InOrder(s.uploads[j], j, Alive(s, j)) && LongEnough(s, j)
  }

  ghost predicate AllJobs(s: State) { forall j :: j in s.uploads ==> JobInv(s, j) }

  /** Registered jobs have the connection they were started for, and so has what is sent for them. */
  ghost predicate Routed(s: State) {
    && (forall j :: j in s.jobs ==> j in s.uploads && s.jobs[j] == s.uploads[j].conn)
    && (s.consumer.Found? || s.consumer.Unregistered? ==>
          s.consumer.event.job in s.uploads && s.consumer.conn == s.uploads[s.consumer.event.job].conn)
    && (forall i :: 0 <= i < |s.log| ==>
                      s.log[i].event.job in s.uploads && s.log[i].conn == s.uploads[s.log[i].event.job].conn)
  }

  /** Only events of started jobs are on their way. */
  ghost predicate Carried(s: State) {
    && (forall i :: 0 <= i < |s.channel| ==> s.channel[i].job in s.uploads)
    && (!s.consumer.Idle? ==> s.consumer.event.job in s.uploads)
  }

  ghost predicate Inv(s: State) { Routed(s) && Carried(s) && AllJobs(s) }

  // ----- every step keeps it -----

  lemma {:induction false} NothingSeen(log: seq<Message>, job: string)
    requires forall i :: 0 <= i < |log| ==> log[i].event.job != job
    ensures Seen(log, job) == []
  {
    if log != [] {
      NothingSeen(log[..|log| - 1], job);
    }
  }

  lemma {:induction false} NothingOf(events: seq<Event>, job: string)
    requires forall i :: 0 <= i < |events| ==> events[i].job != job
    ensures Of(events, job) == []
  {
    if events != [] {
      NothingOf(events[..|events| - 1], job);
    }
  }

  lemma NewJobStep(s: State, job: string, conn: string, reports: seq<Event>)
    requires Routed(s) && Carried(s) && Enabled(s, Start(job, conn, reports))
    ensures JobInv(Apply(s, Start(job, conn, reports)), job)
  {
    var t := Apply(s, Start(job, conn, reports));
    NothingSeen(s.log, job);
    NothingOf(s.channel, job);
    assert Alive(t, job) == [];
  }

  lemma StartStep(s: State, job: string, conn: string, reports: seq<Event>, j: string)
    requires Enabled(s, Start(job, conn, reports)) && j in s.uploads && JobInv(s, j)
    ensures JobInv(Apply(s, Start(job, conn, reports)), j)
  {
    assert Alive(Apply(s, Start(job, conn, reports)), j) == Alive(s, j);
  }

  lemma NotifyOtherStep(s: State, job: string, j: string)
    requires Enabled(s, Notify(job)) && j in s.uploads && JobInv(s, j) && JobInv(s, job) && j != job
    ensures JobInv(NotifyNext(s, job), j)
  {
    var t := NotifyNext(s, job);
    var u := s.uploads[job];
    OfMore(s.channel, u.reports[u.sent], j);
    assert Of(t.channel, j) == Of(s.channel, j);
    assert Alive(t, j) == Alive(s, j);
  }

  lemma AliveAfterNotify(s: State, job: string)
    requires Enabled(s, Notify(job)) && s.uploads[job].reports[s.uploads[job].sent].job == job
    ensures var u := s.uploads[job];
            Alive(NotifyNext(s, job), job) ==
            Alive(s, job) + if |s.channel| < CAPACITY then [u.reports[u.sent]] else []
  {
    var u := s.uploads[job];
    OfMore(s.channel, u.reports[u.sent], job);
  }

  /** One more report, which either stays alive or is dropped. */
  lemma InOrderNext(u: Upload, job: string, alive: seq<Event>)
    requires InOrder(u, job, alive) && u.sent < |u.reports|
    ensures InOrder(u.(sent := u.sent + 1), job, alive + [u.reports[u.sent]])
    ensures InOrder(u.(sent := u.sent + 1, dropped := u.dropped + 1), job, alive)
  {
    var n := u.sent;
    assert u.reports[..n + 1] == u.reports[..n] + [u.reports[n]];
    SubseqMore(alive, u.reports[..n], u.reports[n]);
  }

  lemma NotifyOwnStep(s: State, job: string)
    requires Enabled(s, Notify(job)) && JobInv(s, job)
    ensures JobInv(NotifyNext(s, job), job)
  {
    var alive := Alive(s, job);
    AliveAfterNotify(s, job);
    InOrderNext(s.uploads[job], job, alive);
    assert alive + [] == alive;
    assert job in s.jobs;
  }

  lemma Regroup(a: seq<Event>, h: seq<Event>, c: seq<Event>)
    ensures a + [] + (h + c) == a + h + c && a + h + [] + c == a + h + c
  {
  }

  lemma ChannelHead(channel: seq<Event>, j: string)
    requires channel != []
    ensures Of(channel, j) == InHand(Received(channel[0]), j) + Of(channel[1..], j)
  {
    assert channel == [channel[0]] + channel[1..];
    OfHead(channel[0], channel[1..], j);
  }

  lemma AliveAfterReceive(s: State, j: string)
    requires Enabled(s, Receive)
    ensures Alive(Apply(s, Receive), j) == Alive(s, j)
    ensures Of(s.channel, j) == InHand(Received(s.channel[0]), j) + Of(s.channel[1..], j)
  {
    ChannelHead(s.channel, j);
    Regroup(Seen(s.log, j), InHand(Received(s.channel[0]), j), Of(s.channel[1..], j));
  }

  lemma ReceiveStep(s: State, j: string)
    requires Enabled(s, Receive) && j in s.uploads && JobInv(s, j)
    ensures JobInv(Apply(s, Receive), j)
  {
    AliveAfterReceive(s, j);
  }

  lemma LookupStep(s: State, j: string)
    requires Enabled(s, Lookup) && j in s.uploads && JobInv(s, j)
    requires s.consumer.event.job in s.jobs
    ensures JobInv(Apply(s, Lookup), j)
  {
    assert Alive(Apply(s, Lookup), j) == Alive(s, j);
  }

  lemma SeenMore(log: seq<Message>, m: Message, j: string)
    ensures Seen(log + [m], j) == Seen(log, j) + if m.event.job == j then [m.event] else []
  {
    assert (log + [m])[..|log|] == log;
  }

  lemma AliveAfterBroadcast(s: State, j: string)
    requires Enabled(s, Broadcast)
    ensures Alive(Apply(s, Broadcast), j) == Alive(s, j)
  {
    SeenMore(s.log, Message(s.consumer.conn, s.consumer.event), j);
    Regroup(Seen(s.log, j), InHand(s.consumer, j), Of(s.channel, j));
  }

  lemma BroadcastStep(s: State, j: string)
    requires Enabled(s, Broadcast) && j in s.uploads && JobInv(s, j)
    ensures JobInv(Apply(s, Broadcast), j)
  {
    AliveAfterBroadcast(s, j);
  }

  lemma PrefixOrdered(events: seq<Event>, n: nat)
    requires Ordered(events) && n <= |events|
    ensures Ordered(events[..n])
  {
    var front := events[..n];
    forall i, j | 0 <= i < j < n
      ensures MayPrecede(front[i], front[j])
    {
      assert front[i] == events[i] && front[j] == events[j];
    }
  }

  lemma LastAtEnd(events: seq<Event>, i: nat)
    requires Ordered(events) && i < |events|
    ensures IsLast(events[i]) ==> i == |events| - 1
  {
    if i + 1 < |events| {
      var j := i + 1;
      assert MayPrecede(events[i], events[j]);
    }
  }

  /** The last event of a job is the last of its reports: nothing of the job can come after it. */
  lemma LastIsLast(a: seq<Event>, k: nat, reports: seq<Event>, n: nat)
    requires n <= |reports| && Ordered(reports) && IsSubseq(a, reports[..n])
    requires k < |a| && IsLast(a[k])
    ensures n == |reports| && k == |a| - 1
  {
    PrefixOrdered(reports, n);
    SubseqOrdered(a, reports[..n]);
    assert a[k] in reports[..n];
    var i :| 0 <= i < n && reports[i] == a[k];
    LastAtEnd(reports, i);
    LastAtEnd(a, k);
  }

  lemma UnregisterOwnStep(s: State)
    requires Enabled(s, Step.Unregister) && s.consumer.event.job in s.uploads && JobInv(s, s.consumer.event.job)
    ensures JobInv(Apply(s, Step.Unregister), s.consumer.event.job)
  {
    var e := s.consumer.event;
    var u := s.uploads[e.job];
    var k := |Seen(s.log, e.job)|;
    assert InHand(s.consumer, e.job) == [e];
    assert Alive(s, e.job)[k] == e;
    LastIsLast(Alive(s, e.job), k, u.reports, u.sent);
    assert |Alive(s, e.job)| == k + 1 + |Of(s.channel, e.job)|;
    assert Alive(Apply(s, Step.Unregister), e.job) == Alive(s, e.job);
  }

  lemma UnregisterOtherStep(s: State, j: string)
    requires Enabled(s, Step.Unregister) && j in s.uploads && JobInv(s, j) && j != s.consumer.event.job
    ensures JobInv(Apply(s, Step.Unregister), j)
  {
    assert Alive(Apply(s, Step.Unregister), j) == Alive(s, j);
  }

  lemma RoutedStep(s: State, step: Step)
    requires Routed(s) && Carried(s) && Enabled(s, step)
    ensures Routed(Apply(s, step))
  {
    var t := Apply(s, step);
    if step.Broadcast? {
      assert t.log[..|s.log|] == s.log;
    }
  }

  lemma CarriedStep(s: State, step: Step)
    requires Routed(s) && Carried(s) && Enabled(s, step)
    requires step.Notify? ==> JobInv(s, step.job)
    ensures Carried(Apply(s, step))
  {
    var t := Apply(s, step);
    if step.Receive? {
      assert forall i :: 0 <= i < |t.channel| ==> t.channel[i] == s.channel[i + 1];
    }
  }

  lemma JobsStep(s: State, step: Step, j: string)
    requires Inv(s) && Enabled(s, step) && j in Apply(s, step).uploads
    ensures JobInv(Apply(s, step), j)
  {
    match step
    case Start(job, conn, reports) =>
      if j == job { NewJobStep(s, job, conn, reports); } else { StartStep(s, job, conn, reports, j); }
    case Notify(job) =>
      if j == job { NotifyOwnStep(s, job); } else { NotifyOtherStep(s, job, j); }
    case Receive => ReceiveStep(s, j);
    case Lookup =>
      assert JobInv(s, s.consumer.event.job);
      LookupStep(s, j);
    case Unregister =>
      if j == s.consumer.event.job { UnregisterOwnStep(s); } else { UnregisterOtherStep(s, j); }
    case Broadcast => BroadcastStep(s, j);
  }

  lemma InvStep(s: State, step: Step)
    requires Inv(s) && Enabled(s, step)
    ensures Inv(Apply(s, step))
  {
    RoutedStep(s, step);
    CarriedStep(s, step);
    forall j | j in Apply(s, step).uploads
      ensures JobInv(Apply(s, step), j)
    {
      JobsStep(s, step, j);
    }
  }

  ghost predicate IsRun(s: State, steps: seq<Step>)
    decreases |steps|
  {
    steps == [] || (Enabled(s, steps[0]) && IsRun(Apply(s, steps[0]), steps[1..]))
  }

  ghost function Final(s: State, steps: seq<Step>): State
    requires IsRun(s, steps)
    decreases |steps|
  {
    if steps == [] then s else Final(Apply(s, steps[0]), steps[1..])
  }

  lemma {:induction false} InvRun(s: State, steps: seq<Step>)
    requires Inv(s) && IsRun(s, steps)
    ensures Inv(Final(s, steps))
    decreases |steps|
  {
    if steps != [] {
      InvStep(s, steps[0]);
      InvRun(Apply(s, steps[0]), steps[1..]);
    }
  }

  // ----- what clients see -----

  lemma SeenOrdered(s: State, j: string)
    requires j in s.uploads && JobInv(s, j)
    ensures IsSubseq(Seen(s.log, j), s.uploads[j].reports[..s.uploads[j].sent])
    ensures Ordered(Seen(s.log, j))
  {
    var u := s.uploads[j];
    var after := InHand(s.consumer, j) + Of(s.channel, j);
    assert Alive(s, j) == Seen(s.log, j) + after;
    SubseqPrefix(Seen(s.log, j), after, u.reports[..u.sent]);
    PrefixOrdered(u.reports, u.sent);
    SubseqOrdered(Seen(s.log, j), u.reports[..u.sent]);
  }

  /** In every interleaving, the clients of the connection a job was started for, and no others,
      are sent a subsequence of what the job reported: progress that never falls, then at most one
      last event and nothing after it. */
  lemma ClientsSeeOrderedEvents(steps: seq<Step>, j: string)
    requires IsRun(Init(), steps) && j in Final(Init(), steps).uploads
    ensures var s := Final(Init(), steps);
            var u := s.uploads[j];
            && u.sent <= |u.reports|
            && IsSubseq(Seen(s.log, j), u.reports[..u.sent])
            && Ordered(Seen(s.log, j))
            && forall i :: 0 <= i < |s.log| && s.log[i].event.job == j ==> s.log[i].conn == u.conn
  {
    InvRun(Init(), steps);
    assert JobInv(Final(Init(), steps), j);
    SeenOrdered(Final(Init(), steps), j);
  }

  predicate Drained(s: State, j: string)
    requires j in s.uploads
  {
    s.channel == [] && s.consumer.Idle? && s.uploads[j].sent == |s.uploads[j].reports|
  }

  lemma DrainedSeen(s: State, j: string)
    requires j in s.uploads && JobInv(s, j) && Drained(s, j)
    ensures Seen(s.log, j) == s.uploads[j].reports <==> s.uploads[j].dropped == 0
  {
    var u := s.uploads[j];
    assert Alive(s, j) == Seen(s.log, j);
    assert u.reports[..u.sent] == u.reports;
    SubseqShorter(Seen(s.log, j), u.reports);
  }

  // ----- what is dropped -----

  /** How many reports of the job are made in the run while 100 events wait in the channel. */
  ghost function MetFull(s: State, steps: seq<Step>, j: string): nat
    requires IsRun(s, steps)
    decreases |steps|
  {
    if steps == [] then 0
    else
      (if steps[0] == Notify(j) && |s.channel| >= 100 then 1 else 0) + MetFull(Apply(s, steps[0]), steps[1..], j)
  }

  lemma DroppedStep(s: State, step: Step, j: string)
    requires Enabled(s, step) && |s.channel| <= 100 && j in s.uploads
    ensures var t := Apply(s, step);
            && |t.channel| <= 100 && j in t.uploads
            && t.uploads[j].dropped == s.uploads[j].dropped + if step == Notify(j) && |s.channel| >= 100 then 1 else 0
  {
  }

  lemma {:induction false} DroppedFrom(s: State, steps: seq<Step>, j: string)
    requires IsRun(s, steps) && |s.channel| <= 100 && j in s.uploads
    ensures j in Final(s, steps).uploads
    ensures Final(s, steps).uploads[j].dropped == s.uploads[j].dropped + MetFull(s, steps, j)
    decreases |steps|
  {
    if steps != [] {
      DroppedStep(s, steps[0], j);
      DroppedFrom(Apply(s, steps[0]), steps[1..], j);
    }
  }

  lemma BeforeStart(s: State, step: Step, j: string)
    requires Enabled(s, step) && |s.channel| <= 100 && j !in s.uploads
    ensures var t := Apply(s, step);
            step != Notify(j) && |t.channel| <= 100 && (j in t.uploads ==> t.uploads[j].dropped == 0)
  {
  }

  /** Over every run: what was dropped of a job is what it reported while 100 events waited. */
  lemma {:induction false} DroppedExactly(s: State, steps: seq<Step>, j: string)
    requires IsRun(s, steps) && |s.channel| <= 100 && j !in s.uploads && j in Final(s, steps).uploads
    ensures Final(s, steps).uploads[j].dropped == MetFull(s, steps, j)
    decreases |steps|
  {
    var next := Apply(s, steps[0]);
    BeforeStart(s, steps[0], j);
    if j in next.uploads {
      DroppedFrom(next, steps[1..], j);
    } else {
      DroppedExactly(next, steps[1..], j);
    }
  }

  /** Once a job has reported everything and the channel is drained, its clients have been sent all
      of it exactly when it made no report while 100 events waited. */
  lemma AllSeenExactly(steps: seq<Step>, j: string)
    requires IsRun(Init(), steps) && j in Final(Init(), steps).uploads && Drained(Final(Init(), steps), j)
    ensures var s := Final(Init(), steps);
            Seen(s.log, j) == s.uploads[j].reports <==> MetFull(Init(), steps, j) == 0
  {
    InvRun(Init(), steps);
    DroppedExactly(Init(), steps, j);
    assert JobInv(Final(Init(), steps), j);
    DrainedSeen(Final(Init(), steps), j);
  }

  // ----- the consumer keeps going -----

  predicate ByConsumer(step: Step) { step.Receive? || step.Lookup? || step.Unregister? || step.Broadcast? }

  function Rank(s: State): nat {
    4 * |s.channel| + (match s.consumer
                       case Idle => 0
                       case Received(_) => 3
                       case Found(_, _) => 2
                       case Unregistered(_, _) => 1)
  }

  /** The consumer can take a step unless it is idle before an empty channel, and every step it
      takes lowers the rank. */
  lemma ConsumerMoves(s: State)
    ensures s.channel == [] && s.consumer.Idle? <==> forall step :: ByConsumer(step) ==> !Enabled(s, step)
    ensures forall step :: ByConsumer(step) && Enabled(s, step) ==> Rank(Apply(s, step)) < Rank(s)
  {
    if !(s.channel == [] && s.consumer.Idle?) {
      var step := match s.consumer
        case Idle => Receive
        case Received(_) => Lookup
        case Found(e, _) => if IsLast(e) then Step.Unregister else Broadcast
        case Unregistered(_, _) => Broadcast;
      assert ByConsumer(step) && Enabled(s, step);
    }
  }

  /** So once nothing is reported any more, the consumer stops within the rank, and when it stops
      the channel is drained. */
  lemma {:induction false} ConsumerDrains(s: State, steps: seq<Step>)
    requires IsRun(s, steps) && forall step :: step in steps ==> ByConsumer(step)
    ensures |steps| <= Rank(s)
    ensures var t := Final(s, steps);
            (forall step :: ByConsumer(step) ==> !Enabled(t, step)) <==> t.channel == [] && t.consumer.Idle?
    decreases |steps|
  {
    ConsumerMoves(s);
    if steps != [] {
      assert ByConsumer(steps[0]);
      ConsumerDrains(Apply(s, steps[0]), steps[1..]);
    }
  }

  // ----- how long a job is registered -----

  predicate IsVerdict(e: Event) { e.status == Done || e.status == Error }

  /** A verdict on the job was sent. */
  predicate VerdictSeen(log: seq<Message>, j: string) {
    exists i :: 0 <= i < |log| && log[i].event.job == j && IsVerdict(log[i].event)
  }

  /** A verdict on the job is about to be sent. */
  predicate VerdictInHand(c: Consumer, j: string) { c.Unregistered? && c.event.job == j && IsVerdict(c.event) }

  ghost predicate Registered(s: State) {
    && (s.consumer.Unregistered? ==> IsVerdict(s.consumer.event))
    && forall j :: j in s.uploads ==> (j in s.jobs <==> !VerdictSeen(s.log, j) && !VerdictInHand(s.consumer, j))
  }

  lemma VerdictMore(log: seq<Message>, m: Message, j: string)
    ensures VerdictSeen(log + [m], j) <==> VerdictSeen(log, j) || (m.event.job == j && IsVerdict(m.event))
  {
    var more := log + [m];
    assert more[|log|] == m && forall i :: 0 <= i < |log| ==> more[i] == log[i];
  }

  lemma RegisteredBroadcast(s: State)
    requires Registered(s) && Enabled(s, Broadcast)
    ensures Registered(Apply(s, Broadcast))
  {
    var m := Message(s.consumer.conn, s.consumer.event);
    forall j | j in s.uploads
      ensures VerdictSeen(s.log + [m], j) <==> VerdictSeen(s.log, j) || VerdictInHand(s.consumer, j)
    {
      VerdictMore(s.log, m, j);
    }
  }

  lemma RegisteredStep(s: State, step: Step)
    requires Routed(s) && Carried(s) && Registered(s) && Enabled(s, step)
    ensures Registered(Apply(s, step))
  {
    match step
    case Start(job, _, _) => assert !VerdictSeen(s.log, job) && !VerdictInHand(s.consumer, job);
    case Broadcast => RegisteredBroadcast(s);
    case _ =>
  }

  lemma {:induction false} RegisteredRun(s: State, steps: seq<Step>)
    requires Inv(s) && Registered(s) && IsRun(s, steps)
    ensures Registered(Final(s, steps))
    decreases |steps|
  {
    if steps != [] {
      InvStep(s, steps[0]);
      RegisteredStep(s, steps[0]);
      RegisteredRun(Apply(s, steps[0]), steps[1..]);
    }
  }

  /** In every run a job that was started is registered exactly until its done or its error is sent
      or about to be; so the table keeps no job that is over. */
  lemma RegisteredExactly(steps: seq<Step>, j: string)
    requires IsRun(Init(), steps) && j in Final(Init(), steps).uploads
    ensures var s := Final(Init(), steps);
            j in s.jobs <==> !VerdictSeen(s.log, j) && !VerdictInHand(s.consumer, j)
  {
    RegisteredRun(Init(), steps);
  }

  /** What an upload reports may be reported: whenever it failed, or its declared size covers what
      it wrote. */
  lemma UploadIsReportable(job: string, size: int, events: seq<Event>, written: int, last: Event)
    requires Reports(job, size, events, written, last) && last.job == job && written <= last.progress
    ensures Reportable(job, events)
  {
    ReportsOrdered(job, size, events, written, last);
    forall i | 0 <= i < |events|
      ensures events[i].job == job
    {
      if i < |events| - 1 { assert events[i] == events[..|events| - 1][i]; }
    }
  }

  // ----- the channel and the hub -----

  class ProgressChannel {
    var queue: seq<Event>

    constructor ()
      ensures queue == []
    {
      queue := [];
    }

    /** `notify` never waits: what does not fit is dropped. */
    method Notify(e: Event) returns (sent: bool)
      modifies this
      ensures sent <==> |old(queue)| < 100
      ensures queue == if sent then old(queue) + [e] else old(queue)
    {
      sent := |queue| < CAPACITY;
      if sent {
        queue := queue + [e];
      }
    }
  }

  type Clients = map<string, set<nat>>

  type Logs = map<nat, seq<Event>>

  function ClientsIn(clients: Clients, connId: string): set<nat> {
    if connId in clients then clients[connId] else {}
  }

  function LogIn(logs: Logs, ws: nat): seq<Event> { if ws in logs then logs[ws] else [] }

  /** No connection is kept without clients. */
  predicate NoneEmpty(clients: Clients) { forall c :: c in clients ==> clients[c] != {} }

  /** The clients of one connection are fewer by `gone`, the others' are the same. */
  ghost predicate Without(before: Clients, after: Clients, connId: string, gone: set<nat>) {
    forall c :: ClientsIn(after, c) == ClientsIn(before, c) - if c == connId then gone else {}
  }

  /** The sockets in `sent` have been written the event once, the others nothing. */
  ghost predicate WrittenTo(before: Logs, after: Logs, sent: set<nat>, p: Event) {
    forall ws :: LogIn(after, ws) == LogIn(before, ws) + if ws in sent then [p] else []
  }

  lemma WrittenMore(before: Logs, logs: Logs, sent: set<nat>, p: Event, ws: nat)
    requires WrittenTo(before, logs, sent, p) && ws !in sent
    ensures WrittenTo(before, logs[ws := LogIn(logs, ws) + [p]], sent + {ws}, p)
  {
    var after := logs[ws := LogIn(logs, ws) + [p]];
    forall w
      ensures LogIn(after, w) == LogIn(before, w) + if w in sent + {ws} then [p] else []
    {
      assert LogIn(logs, w) == LogIn(before, w) + if w in sent then [p] else [];
    }
  }

  lemma WithoutMore(before: Clients, now: Clients, after: Clients, connId: string, gone: set<nat>, ws: nat)
    requires Without(before, now, connId, gone) && Without(now, after, connId, {ws})
    ensures Without(before, after, connId, gone + {ws})
  {
    forall c
      ensures ClientsIn(after, c) == ClientsIn(before, c) - if c == connId then gone + {ws} else {}
    {
      assert ClientsIn(now, c) == ClientsIn(before, c) - if c == connId then gone else {};
    }
  }

  class Hub {
    var clients: Clients
    var jobs: map<string, string>
    var logs: Logs

    constructor ()
      ensures clients == map[] && jobs == map[] && logs == map[]
    {
      clients, jobs, logs := map[], map[], map[];
    }

    method AddClient(connId: string, ws: nat)
      requires NoneEmpty(clients)
      modifies this`clients
      ensures NoneEmpty(clients)
      ensures forall c :: ClientsIn(clients, c) == ClientsIn(old(clients), c) + if c == connId then {ws} else {}
    {
      if connId !in clients {
        clients := clients[connId := {}];
      }
      clients := clients[connId := clients[connId] + {ws}];
    }

    method RemoveClient(connId: string, ws: nat)
      requires NoneEmpty(clients)
      modifies this`clients
      ensures NoneEmpty(clients) && Without(old(clients), clients, connId, {ws})
    {
      if connId in clients {
        var conns := clients[connId] - {ws};
        if conns == {} {
          clients := clients - {connId};
        } else {
          clients := clients[connId := conns];
        }
      }
    }

    method RegisterJob(jobId: string, connId: string)
      modifies this`jobs
      ensures jobs == old(jobs)[jobId := connId]
    {
      jobs := jobs[jobId := connId];
    }

    method UnregisterJob(jobId: string)
      modifies this`jobs
      ensures jobs == old(jobs) - {jobId}
    {
      jobs := jobs - {jobId};
    }

    /** An event of a registered job goes to every client of its connection, once, and to no other
        socket; after a last event the job is registered no more; a client that cannot be written
        to is removed. Events of other jobs change nothing. */
    method HandleProgress(p: Event, broken: set<nat>)
      requires NoneEmpty(clients)
      modifies this
      ensures NoneEmpty(clients)
      ensures p.job !in old(jobs) || old(jobs)[p.job] == "" ==>
                jobs == old(jobs) && clients == old(clients) && logs == old(logs)
      ensures p.job in old(jobs) && old(jobs)[p.job] != "" ==>
                var connId := old(jobs)[p.job];
                && jobs == (if p.status == Done || p.status == Error then old(jobs) - {p.job} else old(jobs))
                && Without(old(clients), clients, connId, broken)
                && WrittenTo(old(logs), logs, ClientsIn(old(clients), connId) - broken, p)
    {
      var connId := if p.job in jobs then jobs[p.job] else "";
      if connId == "" {
        return;
      }
      if p.status == Done {
        UnregisterJob(p.job);
      } else if p.status == Error {
        UnregisterJob(p.job);
      }
      DeliverAll(connId, p, broken);
    }

    /** `broadcast` */
    method DeliverAll(connId: string, p: Event, broken: set<nat>)
      requires NoneEmpty(clients)
      modifies this`clients, this`logs
      ensures NoneEmpty(clients)
      ensures Without(old(clients), clients, connId, broken)
      ensures WrittenTo(old(logs), logs, ClientsIn(old(clients), connId) - broken, p)
    {
      ghost var clients0, logs0 := clients, logs;
      var todo := ClientsIn(clients, connId);
      ghost var gone: set<nat>, sent: set<nat> := {}, {};
      while todo != {}
        invariant NoneEmpty(clients)
        invariant todo + gone + sent == ClientsIn(clients0, connId) && todo !! gone && todo !! sent
        invariant gone <= broken && sent !! broken
        invariant Without(clients0, clients, connId, gone)
        invariant WrittenTo(logs0, logs, sent, p)
        decreases todo
      {
        var ws :| ws in todo;
        if ws in broken {
          ghost var now := clients;
          RemoveClient(connId, ws);
          WithoutMore(clients0, now, clients, connId, gone, ws);
          gone := gone + {ws};
        } else {
          WrittenMore(logs0, logs, sent, p, ws);
          logs := logs[ws := LogIn(logs, ws) + [p]];
          sent := sent + {ws};
        }
        todo := todo - {ws};
      }
      assert sent == ClientsIn(clients0, connId) - broken;
      assert ClientsIn(clients0, connId) - gone == ClientsIn(clients0, connId) - broken;
    }
  }
}
