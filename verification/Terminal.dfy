/** A terminal session's output: one pump that stores and then forwards every chunk, in two lock
    regions, while browsers attach and detach. */
module Terminal {
  import opened Wrappers

  newtype Byte = x: int | 0 <= x < 256

  type Bytes = seq<Byte>

  /** The replay buffer keeps the last 500 KiB. */
  const LIMIT: nat := 512000

  datatype Note = Connected | Pong | Disconnected

  datatype Frame = Buffer(data: Bytes) | Output(data: Bytes) | Control(note: Note)

  /** `chunks` is everything the pump has stored, `pending` says its last chunk is stored but not
      yet forwarded, and `logs` is what each socket was handed, in order. */
  datatype State = State(
    outputBuf: Bytes,
    ws: Option<nat>,
    logs: map<nat, seq<Frame>>,
    chunks: seq<Bytes>,
    pending: bool)

  datatype Step =
    | Store(chunk: Bytes)
    | Forward
    | Attach(w: nat)
    | Detach
    | Ctrl(w: nat, note: Note)

  function LastK(s: Bytes, k: nat): Bytes {
    if |s| > k then s[|s| - k..] else s
  }

  function Concat(chunks: seq<Bytes>): Bytes {
    if chunks == [] then [] else Concat(chunks[..|chunks| - 1]) + chunks[|chunks| - 1]
  }

  function Log(s: State, w: nat): seq<Frame> { if w in s.logs then s.logs[w] else [] }

  function Send(s: State, w: nat, f: Frame): State { s.(logs := s.logs[w := Log(s, w) + [f]]) }

  function Init(): State { State([], None, map[], [], false) }

  predicate Enabled(s: State, step: Step) {
    match step
    case Store(_) => !s.pending
    case Forward => s.pending
    case _ => true
  }

  function Apply(s: State, step: Step): State
    requires Enabled(s, step)
  {
    match step
    case Store(chunk) =>
      s.(outputBuf := LastK(s.outputBuf + chunk, LIMIT), chunks := s.chunks + [chunk], pending := true)
    case Forward =>
      var t := s.(pending := false);
      if s.ws.Some? && s.chunks != [] then Send(t, s.ws.value, Output(s.chunks[|s.chunks| - 1])) else t
    case Attach(w) =>
      (if |s.outputBuf| > 0 then Send(s, w, Buffer(s.outputBuf)) else s).(ws := Some(w))
    case Detach => s.(ws := None)
    case Ctrl(w, note) => Send(s, w, Control(note))
  }

  predicate IsRun(s: State, steps: seq<Step>)
    decreases |steps|
  {
    steps == [] || (Enabled(s, steps[0]) && IsRun(Apply(s, steps[0]), steps[1..]))
  }

  function Final(s: State, steps: seq<Step>): State
    requires IsRun(s, steps)
    decreases |steps|
  {
    if steps == [] then s else Final(Apply(s, steps[0]), steps[1..])
  }

  // ----- the replay buffer -----

  /** Trimming the buffer before appending does not change what is kept after it. */
  lemma LastKAppend(x: Bytes, y: Bytes, k: nat)
    ensures LastK(LastK(x, k) + y, k) == LastK(x + y, k)
  {
    if |x| > k {
      var dropped := |x| - k;
      assert x[dropped..] + y == (x + y)[dropped..];
      DropTwice(x + y, dropped, |y|);
    }
  }

  lemma DropTwice(z: Bytes, a: nat, b: nat)
    requires a + b <= |z|
    ensures z[a..][b..] == z[a + b..]
  {
  }

  predicate Inv(s: State) {
    && s.outputBuf == LastK(Concat(s.chunks), LIMIT)
    && (s.pending ==> s.chunks != [])
  }

  lemma InvStep(s: State, step: Step)
    requires Inv(s) && Enabled(s, step)
    ensures Inv(Apply(s, step))
  {
    if step.Store? {
      assert (s.chunks + [step.chunk])[..|s.chunks|] == s.chunks;
      LastKAppend(Concat(s.chunks), step.chunk, LIMIT);
    }
  }

  /** In every reachable state the buffer is the last 512000 bytes of the whole output. */
  lemma {:induction false} BufferIsTail(s: State, steps: seq<Step>)
    requires Inv(s) && IsRun(s, steps)
    ensures Inv(Final(s, steps))
    decreases |steps|
  {
    if steps != [] {
      InvStep(s, steps[0]);
      BufferIsTail(Apply(s, steps[0]), steps[1..]);
    }
  }

  // ----- the live stream -----

  /** The data frames of a log; control messages carry no terminal output. */
  function Data(log: seq<Frame>): seq<Frame> {
    if log == [] then []
    else
      var rest := Data(log[..|log| - 1]);
      var f := log[|log| - 1];
      if f.Control? then rest else rest + [f]
  }

  function Outputs(chunks: seq<Bytes>): seq<Frame> {
    seq(|chunks|, i requires 0 <= i < |chunks| => Output(chunks[i]))
  }

  /** How many chunks have been forwarded. */
  function Forwarded(s: State): nat {
    if s.pending && s.chunks != [] then |s.chunks| - 1 else |s.chunks|
  }

  predicate NoSwitch(step: Step) { !step.Attach? && !step.Detach? }

  lemma DataMore(log: seq<Frame>, f: Frame)
    ensures Data(log + [f]) == Data(log) + if f.Control? then [] else [f]
  {
    assert (log + [f])[..|log|] == log;
  }

  lemma SentTo(s: State, v: nat, f: Frame, w: nat)
    ensures Data(Log(Send(s, v, f), w)) == Data(Log(s, w)) + if v == w && !f.Control? then [f] else []
  {
    DataMore(Log(s, w), f);
  }

  lemma OutputsJoin(chunks: seq<Bytes>, a: nat, b: nat, c: nat)
    requires a <= b <= c <= |chunks|
    ensures Outputs(chunks[a..b]) + Outputs(chunks[b..c]) == Outputs(chunks[a..c])
  {
  }

  lemma Associate(x: seq<Frame>, y: seq<Frame>, z: seq<Frame>)
    ensures (x + y) + z == x + (y + z)
  {
  }

  // ----- exactly what is missed -----

  /** `w` is not attached again; other sockets may come and go. */
  predicate NoReattach(step: Step, w: nat) { step != Attach(w) }

  /** Every chunk forwarded in the run found `w` attached. */
  predicate AllForwardedTo(s: State, steps: seq<Step>, w: nat)
    requires IsRun(s, steps)
    decreases |steps|
  {
    steps == [] ||
    ((steps[0].Forward? ==> s.ws == Some(w)) && AllForwardedTo(Apply(s, steps[0]), steps[1..], w))
  }

  /** The chunks forwarded between two moments. */
  function Between(s: State, t: State): seq<Frame> {
    if s.chunks <= t.chunks && Forwarded(s) <= Forwarded(t) then Outputs(t.chunks[Forwarded(s)..Forwarded(t)]) else []
  }

  ghost predicate Follows(s: State, t: State) { s.chunks <= t.chunks && Forwarded(s) <= Forwarded(t) }

  lemma BetweenJoin(s: State, m: State, t: State)
    requires Follows(s, m) && Follows(m, t)
    ensures Follows(s, t) && Between(s, t) == Between(s, m) + Between(m, t)
    ensures |Between(s, t)| == Forwarded(t) - Forwarded(s)
  {
    var a, b, c := Forwarded(s), Forwarded(m), Forwarded(t);
    assert m.chunks[a..b] == t.chunks[a..b];
    OutputsJoin(t.chunks, a, b, c);
  }

  /** One step hands `w` what it forwards, unless it forwards past it. */
  lemma OneStep(s: State, step: Step, w: nat)
    requires Inv(s) && Enabled(s, step) && NoReattach(step, w)
    ensures var t := Apply(s, step);
            && Follows(s, t) && |Between(s, t)| == (if step.Forward? then 1 else 0)
            && Data(Log(t, w)) ==
               Data(Log(s, w)) + (if step.Forward? && s.ws != Some(w) then [] else Between(s, t))
  {
    var t := Apply(s, step);
    match step
    case Forward =>
      var n := |s.chunks| - 1;
      assert Outputs(s.chunks[n..n + 1]) == [Output(s.chunks[n])];
      if s.ws.Some? { SentTo(s.(pending := false), s.ws.value, Output(s.chunks[n]), w); }
    case Attach(v) =>
      SentTo(s, v, Buffer(s.outputBuf), w);
    case Ctrl(v, note) => SentTo(s, v, Control(note), w);
    case _ =>
  }

  /** While `due` was forwarded, the log grew by all of it, or by less. */
  ghost predicate GotAllOrLess(all: bool, before: seq<Frame>, after: seq<Frame>, due: seq<Frame>) {
    if all then after == before + due else |after| < |before| + |due|
  }

  lemma GotMore(first: bool, rest: bool, x: seq<Frame>, y: seq<Frame>, z: seq<Frame>, a: seq<Frame>, b: seq<Frame>)
    requires GotAllOrLess(first, x, y, a) && GotAllOrLess(rest, y, z, b)
    ensures GotAllOrLess(first && rest, x, z, a + b)
  {
    Associate(x, a, b);
  }

  lemma {:induction false} MissedRun(s: State, steps: seq<Step>, w: nat)
    requires Inv(s) && IsRun(s, steps)
    requires forall step :: step in steps ==> NoReattach(step, w)
    ensures Follows(s, Final(s, steps))
    ensures GotAllOrLess(AllForwardedTo(s, steps, w), Data(Log(s, w)), Data(Log(Final(s, steps), w)),
                         Between(s, Final(s, steps)))
    decreases |steps|
  {
    if steps == [] {
      assert Between(s, s) == [];
    } else {
      var m := Apply(s, steps[0]);
      var t := Final(m, steps[1..]);
      InvStep(s, steps[0]);
      OneStep(s, steps[0], w);
      MissedRun(m, steps[1..], w);
      BetweenJoin(s, m, t);
      GotMore(steps[0].Forward? ==> s.ws == Some(w), AllForwardedTo(m, steps[1..], w),
              Data(Log(s, w)), Data(Log(m, w)), Data(Log(t, w)), Between(s, m), Between(m, t));
    }
  }

  /** In every run in which `w` is not attached again, whoever else attaches or detaches: `w` is
      handed exactly the chunks forwarded meanwhile if and only if each of them was forwarded while
      `w` was the current socket. Otherwise it is handed fewer than were forwarded. */
  lemma StreamedExactly(s: State, steps: seq<Step>, w: nat)
    requires Inv(s) && IsRun(s, steps)
    requires forall step :: step in steps ==> NoReattach(step, w)
    ensures var t := Final(s, steps);
            && s.chunks <= t.chunks && Forwarded(s) <= Forwarded(t)
            && (Data(Log(t, w)) == Data(Log(s, w)) + Outputs(t.chunks[Forwarded(s)..Forwarded(t)])
                <==> AllForwardedTo(s, steps, w))
            && (!AllForwardedTo(s, steps, w) ==>
                  |Data(Log(t, w))| < |Data(Log(s, w))| + Forwarded(t) - Forwarded(s))
  {
    MissedRun(s, steps, w);
  }

  // ----- attaching -----

  /** What an attach itself hands over: the replay buffer, unless nothing was ever printed. */
  lemma AttachReplays(s: State, w: nat)
    requires Inv(s)
    ensures var history := Concat(s.chunks);
            Data(Log(Apply(s, Attach(w)), w)) ==
            Data(Log(s, w)) + if history == [] then [] else [Buffer(LastK(history, LIMIT))]
  {
    if |s.outputBuf| > 0 {
      SentTo(s, w, Buffer(s.outputBuf), w);
    }
  }

  /** What a socket attached in state `s` has been handed by state `t`. */
  function Expected(s: State, t: State, w: nat): seq<Frame>
    requires Inv(s) && Inv(t) && s.chunks <= t.chunks
    requires |s.chunks| - (if s.pending then 1 else 0) <= |t.chunks| - (if t.pending then 1 else 0)
  {
    var history := Concat(s.chunks);
    var first := |s.chunks| - (if s.pending then 1 else 0);
    var last := |t.chunks| - (if t.pending then 1 else 0);
    Data(Log(s, w)) + (if history == [] then [] else [Buffer(LastK(history, LIMIT))]) + Outputs(t.chunks[first..last])
  }

  lemma ForwardedIs(s: State)
    requires Inv(s)
    ensures Forwarded(s) == |s.chunks| - if s.pending then 1 else 0
  {
  }

  lemma ExpectedIs(s: State, t: State, w: nat, replayed: seq<Frame>)
    requires Inv(s) && Inv(t) && s.chunks <= t.chunks && Forwarded(s) <= Forwarded(t)
    requires var history := Concat(s.chunks);
             replayed == Data(Log(s, w)) + if history == [] then [] else [Buffer(LastK(history, LIMIT))]
    ensures |s.chunks| - (if s.pending then 1 else 0) <= |t.chunks| - (if t.pending then 1 else 0)
    ensures Expected(s, t, w) == replayed + Outputs(t.chunks[Forwarded(s)..Forwarded(t)])
  {
    ForwardedIs(s);
    ForwardedIs(t);
  }

  lemma AttachedIs(s: State, w: nat)
    ensures Apply(s, Attach(w)).chunks == s.chunks && Forwarded(Apply(s, Attach(w))) == Forwarded(s)
  {
  }

  /** Without any attach or detach every chunk finds the same socket. */
  lemma {:induction false} NoSwitchForwardsAll(s: State, steps: seq<Step>, w: nat)
    requires IsRun(s, steps) && s.ws == Some(w) && forall step :: step in steps ==> NoSwitch(step)
    ensures AllForwardedTo(s, steps, w)
    decreases |steps|
  {
    if steps != [] {
      assert NoSwitch(steps[0]);
      NoSwitchForwardsAll(Apply(s, steps[0]), steps[1..], w);
    }
  }

  /** No gaps: from an attach on, in any interleaving with the pump and whoever else attaches or
      detaches, the socket has been handed the last 512000 bytes of the history (nothing when there
      is none), then every chunk in order from the first one not yet forwarded at the attach to the
      last one forwarded by now, exactly when each of these was forwarded while it was the current
      socket; in particular up to the next attach or detach. So one chunk is repeated just when it
      was stored and unsent at the attach, and only a chunk stored and unsent now is missing. */
  lemma StreamHasNoGaps(before: seq<Step>, w: nat, after: seq<Step>)
    requires IsRun(Init(), before) && IsRun(Apply(Final(Init(), before), Attach(w)), after)
    requires forall step :: step in after ==> NoReattach(step, w)
    ensures var s := Final(Init(), before);
            var a := Apply(s, Attach(w));
            var t := Final(a, after);
            && Inv(s) && Inv(t) && s.chunks <= t.chunks
            && |s.chunks| - (if s.pending then 1 else 0) <= |t.chunks| - (if t.pending then 1 else 0)
            && (Data(Log(t, w)) == Expected(s, t, w) <==> AllForwardedTo(a, after, w))
            && ((forall step :: step in after ==> NoSwitch(step)) ==> Data(Log(t, w)) == Expected(s, t, w))
  {
    BufferIsTail(Init(), before);
    var s := Final(Init(), before);
    var a := Apply(s, Attach(w));
    InvStep(s, Attach(w));
    BufferIsTail(a, after);
    StreamedExactly(a, after, w);
    AttachedIs(s, w);
    AttachReplays(s, w);
    ExpectedIs(s, Final(a, after), w, Data(Log(a, w)));
    if forall step :: step in after ==> NoSwitch(step) {
      NoSwitchForwardsAll(a, after, w);
    }
  }

  lemma {:induction false} ConcatAppend(a: seq<Bytes>, b: seq<Bytes>)
    ensures Concat(a + b) == Concat(a) + Concat(b)
  {
    if b == [] {
      assert a + b == a;
    } else {
      var b' := b[..|b| - 1];
      assert (a + b)[..|a + b| - 1] == a + b';
      ConcatAppend(a, b');
    }
  }

  /** Once the repeated chunk is dropped, replay and live output together are a suffix of
      everything printed so far: all of it, or all but what had left the buffer at the attach. */
  lemma ReplayThenLive(chunks: seq<Bytes>, n: nat, m: nat)
    requires n <= m <= |chunks|
    ensures var history := Concat(chunks[..n]);
            var lost := if |history| > LIMIT then |history| - LIMIT else 0;
            && lost <= |Concat(chunks[..m])|
            && LastK(history, LIMIT) + Concat(chunks[n..m]) == Concat(chunks[..m])[lost..]
  {
    assert chunks[..m] == chunks[..n] + chunks[n..m];
    ConcatAppend(chunks[..n], chunks[n..m]);
  }

  lemma {:induction false} Extend(s: State, steps: seq<Step>, step: Step) returns (longer: seq<Step>)
    requires IsRun(s, steps) && Enabled(Final(s, steps), step)
    ensures longer == steps + [step]
    ensures IsRun(s, longer) && Final(s, longer) == Apply(Final(s, steps), step)
    decreases |steps|
  {
    longer := steps + [step];
    if steps == [] {
      assert longer[1..] == [];
    } else {
      var tail := Extend(Apply(s, steps[0]), steps[1..], step);
      assert longer[1..] == tail;
    }
  }

  /** A chunk may be missed: the detach of an older socket silences the one that replaced it, and
      what is printed after that reaches nobody. */
  lemma StaleDetachSilences(chunk: Bytes) returns (steps: seq<Step>)
    ensures IsRun(Init(), steps) && steps == [Attach(0), Attach(1), Detach, Store(chunk), Forward]
    ensures var s := Final(Init(), steps); !s.pending && Log(s, 1) == [] && s.chunks == [chunk]
  {
    steps := Extend(Init(), [], Attach(0));
    steps := Extend(Init(), steps, Attach(1));
    steps := Extend(Init(), steps, Detach);
    steps := Extend(Init(), steps, Store(chunk));
    steps := Extend(Init(), steps, Forward);
  }

  // ----- control messages -----

  /** The control messages of a log. */
  function Notes(log: seq<Frame>): seq<Note> {
    if log == [] then []
    else
      var rest, f := Notes(log[..|log| - 1]), log[|log| - 1];
      if f.Control? then rest + [f.note] else rest
  }

  lemma NotesMore(log: seq<Frame>, f: Frame)
    ensures Notes(log + [f]) == Notes(log) + if f.Control? then [f.note] else []
  {
    assert (log + [f])[..|log|] == log;
  }

  function NotesTo(steps: seq<Step>, w: nat): seq<Note> {
    if steps == [] then []
    else (if steps[0].Ctrl? && steps[0].w == w then [steps[0].note] else []) + NotesTo(steps[1..], w)
  }

  lemma NotesStep(s: State, step: Step, w: nat)
    requires Enabled(s, step)
    ensures Notes(Log(Apply(s, step), w)) == Notes(Log(s, w)) + NotesTo([step], w)
  {
    assert [step][1..] == [];
    match step
    case Forward =>
      if s.chunks != [] { NotesMore(Log(s, w), Output(s.chunks[|s.chunks| - 1])); }
    case Attach(v) => NotesMore(Log(s, w), Buffer(s.outputBuf));
    case Ctrl(v, note) => NotesMore(Log(s, w), Control(note));
    case _ =>
  }

  lemma NotesToHead(steps: seq<Step>, w: nat)
    requires steps != []
    ensures NotesTo(steps, w) == NotesTo([steps[0]], w) + NotesTo(steps[1..], w)
  {
    assert [steps[0]][1..] == [];
  }

  lemma NotesJoin(a: seq<Note>, b: seq<Note>, c: seq<Note>, first: seq<Note>, rest: seq<Note>)
    requires b == a + first && c == b + rest
    ensures c == a + (first + rest)
  {
  }

  /** Over every run a socket is handed exactly the control messages sent to it, in order. */
  lemma {:induction false} NotesArrive(s: State, steps: seq<Step>, w: nat)
    requires IsRun(s, steps)
    ensures Notes(Log(Final(s, steps), w)) == Notes(Log(s, w)) + NotesTo(steps, w)
    decreases |steps|
  {
    if steps != [] {
      var next := Apply(s, steps[0]);
      NotesStep(s, steps[0], w);
      NotesArrive(next, steps[1..], w);
      NotesToHead(steps, w);
      NotesJoin(Notes(Log(s, w)), Notes(Log(next, w)), Notes(Log(Final(s, steps), w)),
                NotesTo([steps[0]], w), NotesTo(steps[1..], w));
    }
  }

  // ----- the session object -----

  class TerminalSession {
    var outputBuf: Bytes
    var wsConn: Option<nat>
    var logs: map<nat, seq<Frame>>
    ghost var chunks: seq<Bytes>
    ghost var pending: bool

    ghost function View(): State
      reads this
    {
      State(outputBuf, wsConn, logs, chunks, pending)
    }

    constructor ()
      ensures View() == Init()
    {
      outputBuf, wsConn, logs := [], None, map[];
      chunks, pending := [], false;
    }

    /** Hands a frame to a socket; write errors are ignored. */
    method WriteJSON(w: nat, f: Frame)
      modifies this`logs
      ensures View() == Send(old(View()), w, f)
    {
      logs := logs[w := (if w in logs then logs[w] else []) + [f]];
    }

    /** First lock region of `writeToClient`. */
    method StoreRegion(data: Bytes)
      requires Enabled(View(), Store(data))
      modifies this
      ensures View() == Apply(old(View()), Store(data))
    {
      outputBuf := outputBuf + data;
      if |outputBuf| > 500 * 1024 {
        outputBuf := outputBuf[|outputBuf| - 500 * 1024..];
      }
      chunks, pending := chunks + [data], true;
    }

    /** Second lock region of `writeToClient`. */
    method ForwardRegion(data: Bytes)
      requires Inv(View()) && Enabled(View(), Forward) && data == chunks[|chunks| - 1]
      modifies this
      ensures View() == Apply(old(View()), Forward)
    {
      if wsConn.Some? {
        WriteJSON(wsConn.value, Output(data));
      }
      pending := false;
    }

    method AttachRegion(w: nat)
      modifies this
      ensures View() == Apply(old(View()), Attach(w))
    {
      if |outputBuf| > 0 {
        WriteJSON(w, Buffer(outputBuf));
      }
      wsConn := Some(w);
    }

    /** `AttachWebSocket` with the confirmation it sends after its lock region. */
    method AttachWebSocket(w: nat)
      modifies this
      ensures View() == Apply(Apply(old(View()), Attach(w)), Ctrl(w, Connected))
      ensures wsConn == Some(w) && outputBuf == old(outputBuf)
      ensures Log(View(), w) == old(Log(View(), w)) + (if outputBuf == [] then [] else [Buffer(outputBuf)])
                                + [Control(Connected)]
      ensures forall v :: v != w ==> Log(View(), v) == old(Log(View(), v))
    {
      AttachRegion(w);
      WriteJSON(w, Control(Connected));
    }

    /** The answer to a ping. */
    method Ping()
      modifies this
      ensures old(wsConn).Some? ==> View() == Apply(old(View()), Ctrl(old(wsConn).value, Pong))
      ensures old(wsConn).None? ==> View() == old(View())
    {
      if wsConn.Some? {
        WriteJSON(wsConn.value, Control(Pong));
      }
    }

    /** `notifyDisconnected`, once it has read the current socket; that one may be replaced by now. */
    method NotifyDisconnected(ws: Option<nat>)
      modifies this
      ensures ws.Some? ==> View() == Apply(old(View()), Ctrl(ws.value, Disconnected))
      ensures ws.None? ==> View() == old(View())
    {
      if ws.None? {
        return;
      }
      WriteJSON(ws.value, Control(Disconnected));
    }

    method DetachWebSocket()
      modifies this
      ensures View() == Apply(old(View()), Detach)
    {
      wsConn := None;
    }

    /** One chunk from the pump, when nothing comes between its two lock regions. */
    method WriteToClient(data: Bytes)
      requires Inv(View()) && !pending
      modifies this
      ensures Inv(View()) && !pending && wsConn == old(wsConn)
      ensures chunks == old(chunks) + [data]
      ensures logs == if wsConn.None? then old(logs)
                      else old(logs)[wsConn.value := old(Log(View(), wsConn.value)) + [Output(data)]]
    {
      InvStep(View(), Store(data));
      StoreRegion(data);
      ForwardRegion(data);
    }
  }
}
