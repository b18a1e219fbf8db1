/** What one browser socket receives of uploads while sockets come and go: the hub's protocol with
    the list of clients, the copy of it that one broadcast works through, and every write. */
module UploadSockets {
  import UC = UploadCopy
  import UE = UploadEvents

  datatype State = State(
    hub: UE.State,
    clients: UE.Clients,
    todo: set<nat>,                         // sockets the last broadcast has yet to write to
    got: map<nat, seq<UE.Message>>,
    joined: set<(string, nat)>)             // who was ever a client of which connection

  datatype Step =
    | Hub(step: UE.Step)
    | Join(conn: string, ws: nat)
    | Leave(conn: string, ws: nat)
    | Write(ws: nat, ok: bool)

  function Init(): State { State(UE.Init(), map[], {}, map[], {}) }

  function Got(s: State, ws: nat): seq<UE.Message> { if ws in s.got then s.got[ws] else [] }

  function LastMessage(s: State): UE.Message
    requires s.hub.log != []
  {
    s.hub.log[|s.hub.log| - 1]
  }

  /** The consumer takes the next event only after the last broadcast is through. */
  ghost predicate Enabled(s: State, step: Step) {
    match step
    case Hub(h) => UE.Enabled(s.hub, h) && (h.Receive? ==> s.todo == {})
    case Join(_, _) => true
    case Leave(_, _) => true
    case Write(ws, _) => ws in s.todo && s.hub.log != []
  }

  function WithClient(clients: UE.Clients, conn: string, ws: nat): UE.Clients {
    clients[conn := UE.ClientsIn(clients, conn) + {ws}]
  }

  function WithoutClient(clients: UE.Clients, conn: string, ws: nat): UE.Clients {
    var left := UE.ClientsIn(clients, conn) - {ws};
    if left == {} then clients - {conn} else clients[conn := left]
  }

  ghost function Apply(s: State, step: Step): State
    requires Enabled(s, step)
  {
    match step
    case Hub(h) =>
      var t := s.(hub := UE.Apply(s.hub, h));
      if h.Broadcast? then t.(todo := UE.ClientsIn(s.clients, s.hub.consumer.conn)) else t
    case Join(conn, ws) => s.(clients := WithClient(s.clients, conn, ws), joined := s.joined + {(conn, ws)})
    case Leave(conn, ws) => s.(clients := WithoutClient(s.clients, conn, ws))
    case Write(ws, ok) =>
      var m := LastMessage(s);
      var t := s.(todo := s.todo - {ws});
      if ok then t.(got := s.got[ws := Got(s, ws) + [m]])
      else t.(clients := WithoutClient(s.clients, m.conn, ws))
  }

  ghost predicate IsRun(s: State, steps: seq<Step>)
    decreases |steps|
  {
    steps == [] || (Enabled(s, steps[0]) && IsRun(Apply(s, steps[0]), steps[1..]))
  }

  ghost function Final(s: State, steps: seq<Step>): State
    requires IsRun(s, steps)
    decreases |steps|
  {
    if steps == [] then s else Final(Apply(s, steps[0]), steps[1..])
  }

  // ----- subsequences of messages -----

  lemma {:induction false} SubseqTrans<T>(a: seq<T>, b: seq<T>, c: seq<T>)
    requires UE.IsSubseq(a, b) && UE.IsSubseq(b, c)
    ensures UE.IsSubseq(a, c)
    decreases |c|
  {
    if a != [] && b != [] {
      var i, j, k := |a| - 1, |b| - 1, |c| - 1;
      if UE.IsSubseq(b, c[..k]) {
        SubseqTrans(a, b, c[..k]);
      } else if UE.IsSubseq(a, b[..j]) {
        SubseqTrans(a, b[..j], c[..k]);
      } else {
        SubseqTrans(a[..i], b[..j], c[..k]);
      }
    }
  }

  /** Picking one job's events out of two logs keeps the one within the other. */
  lemma {:induction false} SeenSubseq(a: seq<UE.Message>, b: seq<UE.Message>, j: string)
    requires UE.IsSubseq(a, b)
    ensures UE.IsSubseq(UE.Seen(a, j), UE.Seen(b, j))
    decreases |b|
  {
    if a != [] {
      var n, k := |a| - 1, |b| - 1;
      if UE.IsSubseq(a, b[..k]) {
        SeenSubseq(a, b[..k], j);
        SubseqWiden(UE.Seen(a, j), UE.Seen(b[..k], j), b[k].event);
      } else {
        SeenSubseq(a[..n], b[..k], j);
        UE.SubseqMore(UE.Seen(a[..n], j), UE.Seen(b[..k], j), b[k].event);
      }
      assert UE.Seen(b[..k], j) + [] == UE.Seen(b[..k], j);
      assert UE.Seen(a[..n], j) + [] == UE.Seen(a[..n], j);
    }
  }

  lemma SubseqWiden<T>(a: seq<T>, b: seq<T>, e: T)
    requires UE.IsSubseq(a, b)
    ensures UE.IsSubseq(a, b + [e])
  {
    UE.SubseqMore(a, b, e);
  }

  // ----- the invariant -----

  /** The messages a socket has had its chance at. */
  function Given(s: State, ws: nat): seq<UE.Message> {
    if ws in s.todo && s.hub.log != [] then s.hub.log[..|s.hub.log| - 1] else s.hub.log
  }

  ghost predicate Within(s: State) { forall ws :: UE.IsSubseq(Got(s, ws), Given(s, ws)) }

  /** While a broadcast is under way the consumer is at rest. */
  predicate AtRest(s: State) { s.todo != {} ==> s.hub.consumer.Idle? && s.hub.log != [] }

  ghost predicate ClientsJoined(s: State) {
    forall c, ws :: ws in UE.ClientsIn(s.clients, c) ==> (c, ws) in s.joined
  }

  ghost predicate TodoJoined(s: State) {
    forall ws :: ws in s.todo && s.hub.log != [] ==> (LastMessage(s).conn, ws) in s.joined
  }

  ghost predicate GotJoined(s: State) {
    forall ws: nat, m :: m in Got(s, ws) ==> (m.conn, ws) in s.joined
  }

  /** Only sockets that joined a connection are written its messages. */
  ghost predicate ToClients(s: State) { ClientsJoined(s) && TodoJoined(s) && GotJoined(s) }

  ghost predicate Inv(s: State) { UE.Inv(s.hub) && AtRest(s) && Within(s) && ToClients(s) }

  lemma HubLog(s: UE.State, h: UE.Step)
    requires UE.Enabled(s, h)
    ensures UE.Apply(s, h).log == s.log + if h.Broadcast? then [UE.Message(s.consumer.conn, s.consumer.event)] else []
  {
  }

  lemma AtRestStep(s: State, step: Step)
    requires AtRest(s) && Enabled(s, step)
    ensures AtRest(Apply(s, step))
  {
    if step.Hub? { HubLog(s.hub, step.step); }
  }

  lemma GivenAfterBroadcast(s: State, ws: nat)
    requires AtRest(s) && Enabled(s, Hub(UE.Broadcast))
    ensures var t := Apply(s, Hub(UE.Broadcast));
            && Given(s, ws) == s.hub.log
            && Given(t, ws) == if ws in t.todo then s.hub.log else t.hub.log
  {
    HubLog(s.hub, UE.Broadcast);
  }

  lemma WithinStep(s: State, step: Step, ws: nat)
    requires AtRest(s) && Enabled(s, step) && UE.IsSubseq(Got(s, ws), Given(s, ws))
    ensures UE.IsSubseq(Got(Apply(s, step), ws), Given(Apply(s, step), ws))
  {
    match step
    case Hub(h) =>
      HubLog(s.hub, h);
      if h.Broadcast? {
        GivenAfterBroadcast(s, ws);
        UE.SubseqMore(Got(s, ws), s.hub.log, UE.Message(s.hub.consumer.conn, s.hub.consumer.event));
      }
    case Write(w, ok) =>
      if w == ws {
        assert s.hub.log == Given(s, ws) + [LastMessage(s)];
        UE.SubseqMore(Got(s, ws), Given(s, ws), LastMessage(s));
      }
    case _ =>
  }

  lemma ClientsJoinedStep(s: State, step: Step)
    requires ClientsJoined(s) && Enabled(s, step)
    ensures ClientsJoined(Apply(s, step))
  {
    forall c, ws | ws in UE.ClientsIn(Apply(s, step).clients, c)
      ensures (c, ws) in Apply(s, step).joined
    {
    }
  }

  lemma TodoJoinedStep(s: State, step: Step)
    requires ToClients(s) && AtRest(s) && Enabled(s, step)
    ensures TodoJoined(Apply(s, step))
  {
    if step.Hub? { HubLog(s.hub, step.step); }
  }

  lemma GotJoinedStep(s: State, step: Step)
    requires ToClients(s) && Enabled(s, step)
    ensures GotJoined(Apply(s, step))
  {
    forall ws: nat, m | m in Got(Apply(s, step), ws)
      ensures (m.conn, ws) in Apply(s, step).joined
    {
      if m !in Got(s, ws) { assert step.Write? && m == LastMessage(s) && ws == step.ws; }
    }
  }

  lemma ToClientsStep(s: State, step: Step)
    requires ToClients(s) && AtRest(s) && Enabled(s, step)
    ensures ToClients(Apply(s, step))
  {
    ClientsJoinedStep(s, step);
    TodoJoinedStep(s, step);
    GotJoinedStep(s, step);
  }

  lemma InvStep(s: State, step: Step)
    requires Inv(s) && Enabled(s, step)
    ensures Inv(Apply(s, step))
  {
    if step.Hub? { UE.InvStep(s.hub, step.step); }
    AtRestStep(s, step);
    ToClientsStep(s, step);
    forall ws
      ensures UE.IsSubseq(Got(Apply(s, step), ws), Given(Apply(s, step), ws))
    {
      WithinStep(s, step, ws);
    }
  }

  lemma {:induction false} InvRun(s: State, steps: seq<Step>)
    requires Inv(s) && IsRun(s, steps)
    ensures Inv(Final(s, steps))
    decreases |steps|
  {
    if steps != [] {
      InvStep(s, steps[0]);
      InvRun(Apply(s, steps[0]), steps[1..]);
    }
  }

  lemma {:induction false} SeenComesFrom(log: seq<UE.Message>, j: string) returns (m: UE.Message)
    requires UE.Seen(log, j) != []
    ensures m in log && m.event.job == j
  {
    var n := |log| - 1;
    if log[n].event.job == j {
      m := log[n];
    } else {
      m := SeenComesFrom(log[..n], j);
    }
  }

  lemma {:induction false} SubseqFrom<T>(a: seq<T>, b: seq<T>)
    requires UE.IsSubseq(a, b)
    ensures forall x :: x in a ==> x in b
    decreases |b|
  {
    if a != [] {
      var n, k := |a| - 1, |b| - 1;
      if UE.IsSubseq(a, b[..k]) {
        SubseqFrom(a, b[..k]);
      } else {
        SubseqFrom(a[..n], b[..k]);
        assert a == a[..n] + [a[n]];
      }
    }
  }

  lemma GotInLog(s: State, ws: nat)
    requires Inv(s)
    ensures UE.IsSubseq(Got(s, ws), s.hub.log)
  {
    assert UE.IsSubseq(Got(s, ws), Given(s, ws));
    if Given(s, ws) != s.hub.log {
      assert s.hub.log == Given(s, ws) + [LastMessage(s)];
      UE.SubseqMore(Got(s, ws), Given(s, ws), LastMessage(s));
    }
  }

  lemma SocketOf(s: State, ws: nat, j: string)
    requires Inv(s) && j in s.hub.uploads
    ensures UE.Seen(Got(s, ws), j) != [] ==> (s.hub.uploads[j].conn, ws) in s.joined
  {
    if UE.Seen(Got(s, ws), j) != [] {
      var m := SeenComesFrom(Got(s, ws), j);
      GotInLog(s, ws);
      SubseqFrom(Got(s, ws), s.hub.log);
      assert m in s.hub.log;
    }
  }

  /** In every run of uploads, hub and sockets that join, leave and fail at any time: what one
      socket receives of a job is a subsequence of the job's reports, so progress never falls and at
      most one last event comes, after everything else; and it receives something only if it was a
      client of the connection the job was started for. */
  lemma SocketSeesOrderedEvents(steps: seq<Step>, ws: nat, j: string)
    requires IsRun(Init(), steps) && j in Final(Init(), steps).hub.uploads
    ensures var s := Final(Init(), steps);
            var u := s.hub.uploads[j];
            var events := UE.Seen(Got(s, ws), j);
            && u.sent <= |u.reports| && UE.IsSubseq(events, u.reports[..u.sent])
            && UC.Ordered(events)
            && (events != [] ==> (u.conn, ws) in s.joined)
  {
    InvRun(Init(), steps);
    var s := Final(Init(), steps);
    var u := s.hub.uploads[j];
    assert UE.JobInv(s.hub, j);
    GotInLog(s, ws);
    SeenSubseq(Got(s, ws), s.hub.log, j);
    UE.SeenOrdered(s.hub, j);
    SubseqTrans(UE.Seen(Got(s, ws), j), UE.Seen(s.hub.log, j), u.reports[..u.sent]);
    UE.SubseqOrdered(UE.Seen(Got(s, ws), j), UE.Seen(s.hub.log, j));
    SocketOf(s, ws, j);
  }

  // ----- who is a client -----

  /** The socket leaves the connection, or a write of one of its messages to it fails. */
  predicate Removes(s: State, step: Step, ws: nat, conn: string) {
    || step == Leave(conn, ws)
    || (step == Write(ws, false) && s.hub.log != [] && LastMessage(s).conn == conn)
  }

  ghost predicate NeverRemoved(s: State, steps: seq<Step>, ws: nat, conn: string)
    requires IsRun(s, steps)
    decreases |steps|
  {
    steps == [] || (!Removes(s, steps[0], ws, conn) && NeverRemoved(Apply(s, steps[0]), steps[1..], ws, conn))
  }

  /** The socket joins in the run and is not removed after that. */
  ghost predicate JoinedLast(s: State, steps: seq<Step>, ws: nat, conn: string)
    requires IsRun(s, steps)
    decreases |steps|
  {
    steps != [] &&
    (|| (steps[0] == Join(conn, ws) && NeverRemoved(Apply(s, steps[0]), steps[1..], ws, conn))
     || JoinedLast(Apply(s, steps[0]), steps[1..], ws, conn))
  }

  predicate IsClient(s: State, ws: nat, conn: string) { ws in UE.ClientsIn(s.clients, conn) }

  lemma ClientAfter(s: State, step: Step, ws: nat, conn: string)
    requires Enabled(s, step)
    ensures IsClient(Apply(s, step), ws, conn) <==>
            step == Join(conn, ws) || (IsClient(s, ws, conn) && !Removes(s, step, ws, conn))
  {
  }

  /** Over every run a socket is a client at the end exactly if it joined and was not removed since,
      or was one before and never was. */
  lemma {:induction false} ClientExactly(s: State, steps: seq<Step>, ws: nat, conn: string)
    requires IsRun(s, steps)
    ensures IsClient(Final(s, steps), ws, conn) <==>
            JoinedLast(s, steps, ws, conn) || (IsClient(s, ws, conn) && NeverRemoved(s, steps, ws, conn))
    decreases |steps|
  {
    if steps != [] {
      ClientAfter(s, steps[0], ws, conn);
      ClientExactly(Apply(s, steps[0]), steps[1..], ws, conn);
    }
  }

  // ----- nothing missed -----

  /** The messages for one connection. */
  function To(log: seq<UE.Message>, conn: string): seq<UE.Message> {
    if log == [] then []
    else
      var n := |log| - 1;
      To(log[..n], conn) + if log[n].conn == conn then [log[n]] else []
  }

  lemma ToMore(log: seq<UE.Message>, m: UE.Message, conn: string)
    ensures To(log + [m], conn) == To(log, conn) + if m.conn == conn then [m] else []
  {
    assert (log + [m])[..|log|] == log;
  }

  /** What the socket is about to be written for the connection. */
  function Coming(s: State, ws: nat, conn: string): seq<UE.Message> {
    if ws in s.todo && s.hub.log != [] && LastMessage(s).conn == conn then [LastMessage(s)] else []
  }

  /** What it has been written and is about to be. */
  function Owed(s: State, ws: nat, conn: string): seq<UE.Message> { To(Got(s, ws), conn) + Coming(s, ws, conn) }

  lemma OwedAtRest(s: State, ws: nat, conn: string)
    requires ws !in s.todo
    ensures Owed(s, ws, conn) == To(Got(s, ws), conn)
  {
  }

  /** A message for the connection is broadcast while the socket is no client, or the write fails. */
  ghost predicate Misses(s: State, step: Step, ws: nat, conn: string)
    requires Enabled(s, step)
  {
    match step
    case Hub(h) => h.Broadcast? && s.hub.consumer.conn == conn && ws !in UE.ClientsIn(s.clients, conn)
    case Write(w, ok) => w == ws && !ok && LastMessage(s).conn == conn
    case _ => false
  }

  /** From `s` to `t` the connection was sent `more`, of which the socket missed `missed`. */
  predicate Accounts(s: State, t: State, ws: nat, conn: string, more: seq<UE.Message>, missed: nat) {
    && To(t.hub.log, conn) == To(s.hub.log, conn) + more
    && (missed == 0 ==> Owed(t, ws, conn) == Owed(s, ws, conn) + more)
    && |Owed(t, ws, conn)| + missed == |Owed(s, ws, conn)| + |more|
  }

  lemma Appended<T>(a: seq<T>, b: seq<T>, c: seq<T>, first: seq<T>, rest: seq<T>)
    requires b == a + first && c == b + rest
    ensures c == a + (first + rest)
  {
  }

  lemma AccountsAdd(s: State, t: State, u: State, ws: nat, conn: string,
                    first: seq<UE.Message>, rest: seq<UE.Message>, n: nat, m: nat)
    requires Accounts(s, t, ws, conn, first, n) && Accounts(t, u, ws, conn, rest, m)
    ensures Accounts(s, u, ws, conn, first + rest, n + m)
  {
    Appended(To(s.hub.log, conn), To(t.hub.log, conn), To(u.hub.log, conn), first, rest);
    if n + m == 0 {
      Appended(Owed(s, ws, conn), Owed(t, ws, conn), Owed(u, ws, conn), first, rest);
    }
  }

  lemma NothingSent(s: State, t: State, ws: nat, conn: string)
    requires t.hub.log == s.hub.log && t.got == s.got && t.todo == s.todo
    ensures Accounts(s, t, ws, conn, [], 0)
  {
  }

  lemma BroadcastOwes(s: State, ws: nat, conn: string)
    requires AtRest(s) && Enabled(s, Hub(UE.Broadcast))
    ensures var t := Apply(s, Hub(UE.Broadcast));
            var m := UE.Message(s.hub.consumer.conn, s.hub.consumer.event);
            && Owed(s, ws, conn) == To(Got(s, ws), conn)
            && Owed(t, ws, conn) == Owed(s, ws, conn) + if m.conn == conn && ws in t.todo then [m] else []
  {
    HubLog(s.hub, UE.Broadcast);
  }

  lemma BroadcastAccounts(s: State, ws: nat, conn: string) returns (more: seq<UE.Message>)
    requires AtRest(s) && Enabled(s, Hub(UE.Broadcast))
    ensures Accounts(s, Apply(s, Hub(UE.Broadcast)), ws, conn, more, Count(s, Hub(UE.Broadcast), ws, conn))
  {
    var m := UE.Message(s.hub.consumer.conn, s.hub.consumer.event);
    HubLog(s.hub, UE.Broadcast);
    BroadcastOwes(s, ws, conn);
    ToMore(s.hub.log, m, conn);
    more := if m.conn == conn then [m] else [];
  }

  lemma WriteComing(s: State, w: nat, ok: bool, ws: nat, conn: string)
    requires Enabled(s, Write(w, ok))
    ensures var t := Apply(s, Write(w, ok));
            && t.hub == s.hub && Coming(t, ws, conn) == if ws == w then [] else Coming(s, ws, conn)
  {
  }

  lemma WriteGot(s: State, w: nat, ok: bool, ws: nat, conn: string)
    requires Enabled(s, Write(w, ok))
    ensures var t := Apply(s, Write(w, ok));
            To(Got(t, ws), conn) == To(Got(s, ws), conn) + if ws == w && ok then Coming(s, ws, conn) else []
  {
    var t := Apply(s, Write(w, ok));
    if ok && ws == w {
      ToMore(Got(s, w), LastMessage(s), conn);
    } else {
      assert Got(t, ws) == Got(s, ws);
    }
  }

  lemma WriteAccounts(s: State, w: nat, ok: bool, ws: nat, conn: string)
    requires Enabled(s, Write(w, ok))
    ensures Accounts(s, Apply(s, Write(w, ok)), ws, conn, [], Count(s, Write(w, ok), ws, conn))
  {
    WriteComing(s, w, ok, ws, conn);
    WriteGot(s, w, ok, ws, conn);
  }

  /** Each step either sends the socket all it sends to the connection, or misses one message. */
  lemma OwedStep(s: State, step: Step, ws: nat, conn: string) returns (more: seq<UE.Message>)
    requires AtRest(s) && Enabled(s, step)
    ensures Accounts(s, Apply(s, step), ws, conn, more, Count(s, step, ws, conn))
  {
    more := [];
    if step.Write? {
      WriteAccounts(s, step.ws, step.ok, ws, conn);
    } else if step == Hub(UE.Broadcast) {
      more := BroadcastAccounts(s, ws, conn);
    } else {
      if step.Hub? { HubLog(s.hub, step.step); }
      NothingSent(s, Apply(s, step), ws, conn);
    }
  }

  ghost function Count(s: State, step: Step, ws: nat, conn: string): nat
    requires Enabled(s, step)
  {
    if Misses(s, step, ws, conn) then 1 else 0
  }

  ghost function Missed(s: State, steps: seq<Step>, ws: nat, conn: string): nat
    requires IsRun(s, steps)
    decreases |steps|
  {
    if steps == [] then 0
    else Count(s, steps[0], ws, conn) + Missed(Apply(s, steps[0]), steps[1..], ws, conn)
  }

  lemma {:induction false} OwedRun(s: State, steps: seq<Step>, ws: nat, conn: string) returns (more: seq<UE.Message>)
    requires AtRest(s) && IsRun(s, steps)
    ensures Accounts(s, Final(s, steps), ws, conn, more, Missed(s, steps, ws, conn))
    decreases |steps|
  {
    more := [];
    if steps != [] {
      var next := Apply(s, steps[0]);
      AtRestStep(s, steps[0]);
      var first := OwedStep(s, steps[0], ws, conn);
      var rest := OwedRun(next, steps[1..], ws, conn);
      more := first + rest;
      AccountsAdd(s, next, Final(s, steps), ws, conn, first, rest,
                  Count(s, steps[0], ws, conn), Missed(next, steps[1..], ws, conn));
    }
  }

  /** From any reachable state on, say from joining, a socket is written all that is sent to a
      connection, in order and once, exactly if it is a client at every broadcast to it and no write
      to it fails; else one message is missing for every such failure. */
  lemma SocketMissesExactly(before: seq<Step>, steps: seq<Step>, ws: nat, conn: string) returns (more: seq<UE.Message>)
    requires IsRun(Init(), before) && IsRun(Final(Init(), before), steps)
    requires ws !in Final(Init(), before).todo && ws !in Final(Final(Init(), before), steps).todo
    ensures var s := Final(Init(), before);
            var t := Final(s, steps);
            && To(t.hub.log, conn) == To(s.hub.log, conn) + more
            && (To(Got(t, ws), conn) == To(Got(s, ws), conn) + more <==> Missed(s, steps, ws, conn) == 0)
            && |To(Got(t, ws), conn)| + Missed(s, steps, ws, conn) == |To(Got(s, ws), conn)| + |more|
  {
    InvRun(Init(), before);
    more := OwedRun(Final(Init(), before), steps, ws, conn);
    OwedAtRest(Final(Init(), before), ws, conn);
    OwedAtRest(Final(Final(Init(), before), steps), ws, conn);
  }
}
