/** The tunnel manager as a protocol: every lock region, every system call and every
    `Stop` of a backend is one atomic step, taken by any number of goroutines. */
module Tunnels {
  import opened Wrappers
  import opened HostPort

  datatype Tunnel = Tunnel(id: string, kind: string, localHost: string, localPort: int)

  /** A listener the operating system has opened; `serial` tells two openings apart. */
  datatype Backend = Backend(serial: nat, host: string, port: int)

  datatype Status = StatusRunning | StatusError

  datatype Runtime = Runtime(status: Status, socks5: Option<Backend>, forward: Option<Backend>)

  /** What a goroutine inside `Start` or `Stop` has done so far. */
  datatype Pc =
    | Checked(t: Tunnel)
    | Connected(t: Tunnel)
    | Bound(t: Tunnel, rt: Runtime)
    | Rollback(t: Tunnel, rt: Runtime)
    | Failing(t: Tunnel)
    | Closing(rt: Runtime)

  datatype State = State(
    running: map<string, Runtime>,
    open: set<Backend>,
    stops: multiset<Backend>,
    serial: nat,
    threads: map<nat, Pc>)

  datatype Step =
    | StartCheck(tid: nat, t: Tunnel)
    | Connect(tid: nat, ok: bool)
    | Bind(tid: nat, ok: bool)
    | Publish(tid: nat)
    | Undo(tid: nat)
    | SetError(tid: nat)
    | StopTake(tid: nat, id: string)
    | StopClose(tid: nat)

  const ERROR_ENTRY := Runtime(StatusError, None, None)

  function Init(): State { State(map[], {}, multiset{}, 0, map[]) }

  // ----- the address comparison -----

  function NormalizeBindHost(host: string): string {
    if host == "" then "127.0.0.1" else host
  }

  function AtoiPort(port: string): int {
    match Atoi(port) case Some(n) => n case None => 0
  }

  function BackendOf(rt: Runtime): Option<Backend> {
    if rt.socks5.Some? then rt.socks5 else rt.forward
  }

  function Backends(rt: Runtime): set<Backend> {
    (if rt.socks5.Some? then {rt.socks5.value} else {}) + (if rt.forward.Some? then {rt.forward.value} else {})
  }

  /** One round of the loop in `runningBindConflict`: print, split, compare. */
  predicate Clashes(rt: Runtime, host: string, port: int) {
    && rt.status.StatusRunning? && BackendOf(rt).Some?
    && var b := BackendOf(rt).value;
    var parts := SplitHostPort(BindAddr(b.host, b.port));
    && parts.Some?
    && NormalizeBindHost(parts.value.0) == NormalizeBindHost(host)
    && AtoiPort(parts.value.1) == port
  }

  predicate Busy(running: map<string, Runtime>, host: string, port: int, excluded: string) {
    exists id :: id in running && id != excluded && Clashes(running[id], host, port)
  }

  /** The comparison finds exactly the tunnels with the same normalised host and the same port
      if and only if the running tunnel's host is free of colons and brackets. */
  lemma ClashMeansSameAddress(rt: Runtime)
    requires rt.status.StatusRunning? && BackendOf(rt).Some? && BackendOf(rt).value.host != ""
    ensures var b := BackendOf(rt).value;
            (forall host, port :: Clashes(rt, host, port) <==> NormalizeBindHost(host) == b.host && port == b.port)
            <==> Plain(b.host)
  {
    var b := BackendOf(rt).value;
    SplitBindAddr(b.host, b.port);
    AtoiItoa(b.port);
    if !Plain(b.host) {
      assert !Clashes(rt, b.host, b.port);
    }
  }

  /** A tunnel running on "[::1]" is not found by a request for its very address. */
  lemma BracketedIsMissed(port: int)
    ensures !Clashes(Runtime(StatusRunning, Some(Backend(0, "[::1]", port)), None), "[::1]", port)
  {
    var host := "[::1]";
    SplitBindAddr(host, port);
    assert host[1..|host| - 1] == "::1" && host[0] == '[' && !Plain(host);
  }

  // ----- steps -----

  predicate Supported(kind: string) { kind in {"socks5", "dynamic", "local"} }

  function NewRuntime(kind: string, b: Backend): Runtime {
    if kind == "local" then Runtime(StatusRunning, None, Some(b)) else Runtime(StatusRunning, Some(b), None)
  }

  /** The operating system's side of a bind: the address must parse, and except for port 0,
      which asks for any free port, nobody may be listening on it. */
  predicate CanListen(open: set<Backend>, host: string, port: int) {
    && SplitHostPort(BindAddr(host, port)).Some?
    && (port != 0 ==> forall b :: b in open ==> !(b.host == host && b.port == port))
  }

  predicate Enabled(s: State, step: Step) {
    match step
    case StartCheck(tid, _) => tid !in s.threads
    case StopTake(tid, _) => tid !in s.threads
    case Connect(tid, _) => tid in s.threads && s.threads[tid].Checked?
    case Bind(tid, ok) =>
      && tid in s.threads && s.threads[tid].Connected?
      && var t := s.threads[tid].t;
      (ok ==> CanListen(s.open, NormalizeBindHost(t.localHost), t.localPort))
    case Publish(tid) => tid in s.threads && s.threads[tid].Bound?
    case Undo(tid) => tid in s.threads && s.threads[tid].Rollback?
    case SetError(tid) => tid in s.threads && s.threads[tid].Failing?
    case StopClose(tid) => tid in s.threads && s.threads[tid].Closing?
  }

  function Goto(s: State, tid: nat, pc: Pc): State { s.(threads := s.threads[tid := pc]) }

  function Done(s: State, tid: nat): State { s.(threads := s.threads - {tid}) }

  /** `Stop` of whatever backends a record holds. */
  function StopBackends(s: State, rt: Runtime): State {
    s.(open := s.open - Backends(rt), stops := s.stops + multiset(Backends(rt)))
  }

  predicate AlreadyRunning(s: State, id: string) {
    id in s.running && s.running[id].status.StatusRunning?
  }

  function Apply(s: State, step: Step): State
    requires Enabled(s, step)
  {
    match step
    case StartCheck(tid, t) =>
      if AlreadyRunning(s, t.id) || Busy(s.running, t.localHost, t.localPort, t.id) then s
      else Goto(s, tid, Checked(t))
    case Connect(tid, ok) =>
      var t := s.threads[tid].t;
      Goto(s, tid, if ok then Connected(t) else Failing(t))
    case Bind(tid, ok) =>
      var t := s.threads[tid].t;
      if !Supported(t.kind) then Done(s, tid)
      else if !ok then Goto(s, tid, Failing(t))
      else
        var b := Backend(s.serial, NormalizeBindHost(t.localHost), t.localPort);
        Goto(s.(open := s.open + {b}, serial := s.serial + 1), tid, Bound(t, NewRuntime(t.kind, b)))
    case Publish(tid) =>
      var Bound(t, rt) := s.threads[tid];
      if Busy(s.running, t.localHost, t.localPort, t.id) then Goto(s, tid, Rollback(t, rt))
      else Done(s.(running := s.running[t.id := rt]), tid)
    case Undo(tid) =>
      var Rollback(t, rt) := s.threads[tid];
      Goto(StopBackends(s, rt), tid, Failing(t))
    case SetError(tid) =>
      Done(s.(running := s.running[s.threads[tid].t.id := ERROR_ENTRY]), tid)
    case StopTake(tid, id) =>
      if id !in s.running then s
      else Goto(s.(running := s.running - {id}), tid, Closing(s.running[id]))
    case StopClose(tid) =>
      Done(StopBackends(s, s.threads[tid].rt), tid)
  }

  predicate IsRun(s: State, steps: seq<Step>)
    decreases |steps|
  {
    steps == [] || (Enabled(s, steps[0]) && IsRun(Apply(s, steps[0]), steps[1..]))
  }

  function Final(s: State, steps: seq<Step>): State
    requires IsRun(s, steps)
    decreases |steps|
  {
    if steps == [] then s else Final(Apply(s, steps[0]), steps[1..])
  }

  // ----- who owns a backend -----

  datatype Holder = ByEntry(id: string) | ByThread(tid: nat)

  function Held(s: State, h: Holder): set<Backend> {
    match h
    case ByEntry(id) => if id in s.running then Backends(s.running[id]) else {}
    case ByThread(tid) => if tid in s.threads then Carried(s.threads[tid]) else {}
  }

  function Carried(pc: Pc): set<Backend> {
    if pc.Bound? || pc.Rollback? || pc.Closing? then Backends(pc.rt) else {}
  }

  /** Exactly one backend for a running tunnel, none for a failed one. */
  predicate Sound(rt: Runtime) {
    if rt.status.StatusRunning? then rt.socks5.Some? != rt.forward.Some? else Backends(rt) == {}
  }

  ghost predicate WellFormed(s: State) {
    && (forall id :: id in s.running ==> Sound(s.running[id]))
    && (forall tid :: tid in s.threads ==> SoundPc(s.threads[tid]))
  }

  predicate SoundPc(pc: Pc) {
    match pc
    case Bound(t, rt) => rt.status.StatusRunning? && Sound(rt) && FromTunnel(t, rt)
    case Rollback(t, rt) => Sound(rt)
    case Closing(rt) => Sound(rt)
    case _ => true
  }

  /** The record was built for this tunnel's address. */
  predicate FromTunnel(t: Tunnel, rt: Runtime) {
    && BackendOf(rt).Some?
    && BackendOf(rt).value.host == NormalizeBindHost(t.localHost)
    && BackendOf(rt).value.port == t.localPort
  }

  /** No backend has two owners, and whatever is owned is still open. */
  ghost predicate UniqueOwners(s: State) {
    && (forall h1, h2, b :: b in Held(s, h1) && b in Held(s, h2) ==> h1 == h2)
    && (forall h, b :: b in Held(s, h) ==> b in s.open)
  }

  /** Every opening is either still open or was stopped exactly once. */
  ghost predicate StoppedOnce(s: State) {
    && (forall b :: b in s.open ==> s.stops[b] == 0 && b.serial < s.serial)
    && (forall b :: s.stops[b] <= 1 && (b in s.stops ==> b.serial < s.serial))
  }

  ghost predicate Listenable(s: State) {
    && (forall b :: b in s.open ==> b.host != "" && ReparsedHost(b.host).Some?)
    && (forall b, c :: b in s.open && c in s.open && b != c && b.host == c.host && b.port == c.port ==> b.port == 0)
  }

  ghost predicate RunningPlain(s: State, id: string, host: string, port: int) {
    && AlreadyRunning(s, id) && BackendOf(s.running[id]).Some?
    && BackendOf(s.running[id]).value.host == host && BackendOf(s.running[id]).value.port == port
    && (Plain(host) || port != 0)
  }

  ghost predicate DistinctAddresses(s: State) {
    forall id1, id2, host, port ::
      RunningPlain(s, id1, host, port) && RunningPlain(s, id2, host, port) ==> id1 == id2
  }

  ghost predicate Safe(s: State) {
    WellFormed(s) && UniqueOwners(s) && StoppedOnce(s) && Listenable(s) && DistinctAddresses(s)
  }

  /** A step changes one goroutine and at most one entry. */
  lemma StepKeeps(s: State, step: Step)
    requires Enabled(s, step)
    ensures forall tid :: tid != step.tid ==>
                            (tid in Apply(s, step).threads <==> tid in s.threads)
                            && (tid in s.threads ==> Apply(s, step).threads[tid] == s.threads[tid])
  {
  }

  lemma EntriesSound(s: State, step: Step)
    requires WellFormed(s) && Enabled(s, step)
    ensures forall id :: id in Apply(s, step).running ==> Sound(Apply(s, step).running[id])
  {
    assert step.tid in s.threads ==> SoundPc(s.threads[step.tid]);
  }

  lemma OwnPcSound(s: State, step: Step)
    requires WellFormed(s) && Enabled(s, step) && step.tid in Apply(s, step).threads
    ensures SoundPc(Apply(s, step).threads[step.tid])
  {
    assert step.tid in s.threads ==> SoundPc(s.threads[step.tid]);
  }

  lemma WellFormedStep(s: State, step: Step)
    requires WellFormed(s) && Enabled(s, step)
    ensures WellFormed(Apply(s, step))
  {
    EntriesSound(s, step);
    StepKeeps(s, step);
    forall tid | tid in Apply(s, step).threads
      ensures SoundPc(Apply(s, step).threads[tid])
    {
      if tid == step.tid { OwnPcSound(s, step); }
    }
  }

  lemma OtherThreads(s: State, step: Step, tid: nat)
    requires Enabled(s, step) && tid != step.tid
    ensures Held(Apply(s, step), ByThread(tid)) == Held(s, ByThread(tid))
  {
    StepKeeps(s, step);
  }

  /** Where the backends a holder has after a step came from. */
  ghost function Origin(s: State, step: Step, h: Holder): Holder
    requires Enabled(s, step)
  {
    match step
    case Publish(tid) =>
      if h == ByEntry(s.threads[tid].t.id) && tid !in Apply(s, step).threads then ByThread(tid) else h
    case StopTake(tid, id) => if h == ByThread(tid) then ByEntry(id) else h
    case _ => h
  }

  predicate Fresh(s: State, step: Step, h: Holder, b: Backend) {
    step.Bind? && h == ByThread(step.tid) && b.serial == s.serial
  }

  lemma EntryHeldAfter(s: State, step: Step, id: string, b: Backend)
    requires WellFormed(s) && Enabled(s, step) && b in Held(Apply(s, step), ByEntry(id))
    ensures b in Held(s, Origin(s, step, ByEntry(id)))
  {
  }

  lemma OwnHeldAfter(s: State, step: Step, b: Backend)
    requires WellFormed(s) && Enabled(s, step) && b in Held(Apply(s, step), ByThread(step.tid))
    ensures b in Held(s, Origin(s, step, ByThread(step.tid))) || Fresh(s, step, ByThread(step.tid), b)
  {
  }

  /** A step moves backends between holders, drops them, or hands one new backend to a `Start`. */
  lemma HeldAfter(s: State, step: Step, h: Holder, b: Backend)
    requires WellFormed(s) && Enabled(s, step) && b in Held(Apply(s, step), h)
    ensures b in Held(s, Origin(s, step, h)) || Fresh(s, step, h, b)
  {
    match h
    case ByEntry(id) => EntryHeldAfter(s, step, id, b);
    case ByThread(tid) =>
      if tid == step.tid { OwnHeldAfter(s, step, b); } else { OtherThreads(s, step, tid); }
  }

  /** Different holders got what they have from different holders. */
  lemma OriginsDiffer(s: State, step: Step, h1: Holder, h2: Holder, b: Backend)
    requires WellFormed(s) && Enabled(s, step) && h1 != h2
    requires b in Held(Apply(s, step), h1) && b in Held(Apply(s, step), h2)
    ensures Origin(s, step, h1) != Origin(s, step, h2)
  {
  }

  lemma OneOwnerStep(s: State, step: Step, h1: Holder, h2: Holder, b: Backend)
    requires WellFormed(s) && UniqueOwners(s) && StoppedOnce(s) && Enabled(s, step)
    requires b in Held(Apply(s, step), h1) && b in Held(Apply(s, step), h2)
    ensures h1 == h2
  {
    HeldAfter(s, step, h1, b);
    HeldAfter(s, step, h2, b);
    if h1 != h2 {
      OriginsDiffer(s, step, h1, h2, b);
    }
  }

  predicate Closes(step: Step) { step.Undo? || step.StopClose? }

  lemma ClosedByStep(s: State, step: Step)
    requires Enabled(s, step)
    ensures Closes(step) ==>
              && Apply(s, step).open == s.open - Held(s, ByThread(step.tid))
              && Held(Apply(s, step), ByThread(step.tid)) == {}
              && forall h :: Origin(s, step, h) == h
    ensures !Closes(step) ==> s.open <= Apply(s, step).open
  {
  }

  lemma FreshIsOpen(s: State, step: Step, h: Holder, b: Backend)
    requires Enabled(s, step) && Fresh(s, step, h, b) && b in Held(Apply(s, step), h)
    requires b !in Held(s, h)
    ensures b in Apply(s, step).open
  {
  }

  lemma OwnedOpenStep(s: State, step: Step, h: Holder, b: Backend)
    requires WellFormed(s) && UniqueOwners(s) && StoppedOnce(s) && Enabled(s, step)
    requires b in Held(Apply(s, step), h)
    ensures b in Apply(s, step).open
  {
    HeldAfter(s, step, h, b);
    ClosedByStep(s, step);
    if b in Held(s, Origin(s, step, h)) {
      assert b in s.open;
      assert Closes(step) ==> h != ByThread(step.tid);
    } else {
      FreshIsOpen(s, step, h, b);
    }
  }

  lemma UniqueOwnersStep(s: State, step: Step)
    requires WellFormed(s) && UniqueOwners(s) && StoppedOnce(s) && Enabled(s, step)
    ensures UniqueOwners(Apply(s, step))
  {
    forall h1, h2, b | b in Held(Apply(s, step), h1) && b in Held(Apply(s, step), h2)
      ensures h1 == h2
    {
      OneOwnerStep(s, step, h1, h2, b);
    }
    forall h, b | b in Held(Apply(s, step), h)
      ensures b in Apply(s, step).open
    {
      OwnedOpenStep(s, step, h, b);
    }
  }

  lemma StoppedOnceStep(s: State, step: Step)
    requires WellFormed(s) && UniqueOwners(s) && StoppedOnce(s) && Enabled(s, step)
    ensures StoppedOnce(Apply(s, step))
  {
    if step.Undo? || step.StopClose? {
      var rt := s.threads[step.tid].rt;
      assert Backends(rt) == Held(s, ByThread(step.tid));
      assert forall b :: multiset(Backends(rt))[b] == if b in Backends(rt) then 1 else 0;
    }
  }

  lemma OpenShrinks(s: State, step: Step)
    requires Enabled(s, step) && !(step.Bind? && step.ok)
    ensures Apply(s, step).open <= s.open
  {
  }

  lemma ListenableStep(s: State, step: Step)
    requires Listenable(s) && Enabled(s, step)
    ensures Listenable(Apply(s, step))
  {
    if step.Bind? && step.ok {
      var t := s.threads[step.tid].t;
      SplitBindAddr(NormalizeBindHost(t.localHost), t.localPort);
    } else {
      OpenShrinks(s, step);
    }
  }

  lemma DistinctAddressesStep(s: State, step: Step)
    requires Safe(s) && Enabled(s, step)
    ensures DistinctAddresses(Apply(s, step))
  {
    var s' := Apply(s, step);
    forall id1, id2, host, port | RunningPlain(s', id1, host, port) && RunningPlain(s', id2, host, port)
      ensures id1 == id2
    {
      if RunningPlain(s, id1, host, port) && RunningPlain(s, id2, host, port) {
      } else if id1 != id2 {
        var Bound(t, rt) := s.threads[step.tid];
        var other := if id1 == t.id then id2 else id1;
        PublishedElsewhere(s, t, rt, step.tid, other);
      }
    }
  }

  /** A record that passes the second conflict check has an address no other running tunnel has. */
  lemma PublishedElsewhere(s: State, t: Tunnel, rt: Runtime, tid: nat, other: string)
    requires Safe(s) && tid in s.threads && s.threads[tid] == Bound(t, rt)
    requires !Busy(s.running, t.localHost, t.localPort, t.id)
    requires other != t.id && AlreadyRunning(s, other)
    ensures var b, c := BackendOf(s.running[other]).value, BackendOf(rt).value;
            b.host == c.host && b.port == c.port ==> !Plain(c.host) && c.port == 0
  {
    var b, c := BackendOf(s.running[other]).value, BackendOf(rt).value;
    assert b in Held(s, ByEntry(other)) && c in Held(s, ByThread(tid));
    assert !Clashes(s.running[other], t.localHost, t.localPort);
    ClashMeansSameAddress(s.running[other]);
  }

  lemma SafeStep(s: State, step: Step)
    requires Safe(s) && Enabled(s, step)
    ensures Safe(Apply(s, step))
  {
    WellFormedStep(s, step);
    UniqueOwnersStep(s, step);
    StoppedOnceStep(s, step);
    ListenableStep(s, step);
    DistinctAddressesStep(s, step);
  }

  /** In every interleaving of any calls, overlapping starts of one id included: a backend has at
      most one owner, no backend is stopped twice, a running entry has exactly one backend and a
      failed one none, and running addresses are pairwise distinct but on a bracketed host with port 0. */
  lemma {:induction false} SafeAlways(s: State, steps: seq<Step>)
    requires Safe(s) && IsRun(s, steps)
    ensures Safe(Final(s, steps))
    decreases |steps|
  {
    if steps != [] {
      SafeStep(s, steps[0]);
      SafeAlways(Apply(s, steps[0]), steps[1..]);
    }
  }

  lemma SafeFromInit(steps: seq<Step>)
    requires IsRun(Init(), steps)
    ensures Safe(Final(Init(), steps))
  {
    SafeAlways(Init(), steps);
  }

  /** A run may be extended by any step enabled at its end. */
  lemma {:induction false} Extend(s: State, steps: seq<Step>, step: Step) returns (longer: seq<Step>)
    requires IsRun(s, steps) && Enabled(Final(s, steps), step)
    ensures longer == steps + [step]
    ensures IsRun(s, longer) && Final(s, longer) == Apply(Final(s, steps), step)
    decreases |steps|
  {
    longer := steps + [step];
    if steps == [] {
      assert longer[1..] == [];
    } else {
      var tail := Extend(Apply(s, steps[0]), steps[1..], step);
      assert longer[1..] == tail;
    }
  }

  /** The outcome of a `Start` that runs alone. */
  function StartAlone(s: State, t: Tunnel, connects: bool, binds: bool): State {
    var b := Backend(s.serial, NormalizeBindHost(t.localHost), t.localPort);
    if AlreadyRunning(s, t.id) || Busy(s.running, t.localHost, t.localPort, t.id) then s
    else if connects && !Supported(t.kind) then s
    else if !connects || !binds then s.(running := s.running[t.id := ERROR_ENTRY])
    else s.(running := s.running[t.id := NewRuntime(t.kind, b)], open := s.open + {b}, serial := s.serial + 1)
  }

  // ----- exactly which addresses are distinct -----

  ghost predicate RunsOn(s: State, id: string, host: string, port: int) {
    && AlreadyRunning(s, id) && BackendOf(s.running[id]).Some?
    && BackendOf(s.running[id]).value.host == host && BackendOf(s.running[id]).value.port == port
  }

  ghost predicate AtMostOneOn(s: State, host: string, port: int) {
    forall id1, id2 :: RunsOn(s, id1, host, port) && RunsOn(s, id2, host, port) ==> id1 == id2
  }

  /** A run may be followed by a `Start` that nothing interrupts. */
  lemma ThenStart(steps: seq<Step>, tid: nat, t: Tunnel) returns (longer: seq<Step>)
    requires IsRun(Init(), steps)
    requires var s := Final(Init(), steps);
             && tid !in s.threads && Supported(t.kind) && !AlreadyRunning(s, t.id)
             && !Busy(s.running, t.localHost, t.localPort, t.id)
             && CanListen(s.open, NormalizeBindHost(t.localHost), t.localPort)
    ensures IsRun(Init(), longer) && Final(Init(), longer) == StartAlone(Final(Init(), steps), t, true, true)
  {
    var s := Final(Init(), steps);
    longer := Extend(Init(), steps, StartCheck(tid, t));
    longer := Extend(Init(), longer, Connect(tid, true));
    assert Final(Init(), longer) == s.(threads := s.threads[tid := Connected(t)]);
    longer := ThenFinish(longer, s, tid, t);
  }

  lemma ThenFinish(steps: seq<Step>, s: State, tid: nat, t: Tunnel) returns (longer: seq<Step>)
    requires IsRun(Init(), steps) && Final(Init(), steps) == s.(threads := s.threads[tid := Connected(t)])
    requires tid !in s.threads && Supported(t.kind) && !AlreadyRunning(s, t.id)
    requires !Busy(s.running, t.localHost, t.localPort, t.id)
    requires CanListen(s.open, NormalizeBindHost(t.localHost), t.localPort)
    ensures IsRun(Init(), longer) && Final(Init(), longer) == StartAlone(s, t, true, true)
    ensures longer == steps + [Bind(tid, true), Publish(tid)]
  {
    var b := Backend(s.serial, NormalizeBindHost(t.localHost), t.localPort);
    longer := Extend(Init(), steps, Bind(tid, true));
    longer := Extend(Init(), longer, Publish(tid));
    assert s.threads[tid := Bound(t, NewRuntime(t.kind, b))] - {tid} == s.threads;
  }

  lemma BracketedNeverBusy(running: map<string, Runtime>, host: string, excluded: string)
    requires host != "" && !Plain(host) && ReparsedHost(host).Some?
    requires forall id :: id in running && running[id].status.StatusRunning? && BackendOf(running[id]).Some? ==>
                            BackendOf(running[id]).value.host == host
    ensures forall port :: !Busy(running, host, port, excluded)
  {
    forall id, port | id in running && running[id].status.StatusRunning? && BackendOf(running[id]).Some?
      ensures !Clashes(running[id], host, port)
    {
      var b := BackendOf(running[id]).value;
      SplitBindAddr(b.host, b.port);
    }
  }

  /** On a bracketed host any free port may be asked for twice: both tunnels then run with the
      same address. */
  lemma TwoOnBracketedHost(host: string) returns (steps: seq<Step>)
    requires host != "" && !Plain(host) && ReparsedHost(host).Some?
    ensures IsRun(Init(), steps) && !AtMostOneOn(Final(Init(), steps), host, 0)
  {
    var t1, t2 := Tunnel("a", "dynamic", host, 0), Tunnel("b", "dynamic", host, 0);
    SplitBindAddr(host, 0);
    BracketedNeverBusy(map[], host, "a");
    steps := ThenStart([], 0, t1);
    var s1 := Final(Init(), steps);
    BracketedNeverBusy(s1.running, host, "b");
    steps := ThenStart(steps, 0, t2);
    var s2 := Final(Init(), steps);
    assert RunsOn(s2, "a", host, 0) && RunsOn(s2, "b", host, 0);
  }

  /** On a host that can be bound at all, in every reachable state at most one tunnel runs with a
      given address, exactly if the host is plain or the port is not 0. */
  lemma DistinctExactly(host: string, port: int)
    requires host != "" && ReparsedHost(host).Some?
    ensures (forall steps :: IsRun(Init(), steps) ==> AtMostOneOn(Final(Init(), steps), host, port))
       <==> Plain(host) || port != 0
  {
    if Plain(host) || port != 0 {
      forall steps | IsRun(Init(), steps)
        ensures AtMostOneOn(Final(Init(), steps), host, port)
      {
        SafeFromInit(steps);
        var s := Final(Init(), steps);
        assert forall id :: RunsOn(s, id, host, port) ==> RunningPlain(s, id, host, port);
      }
    } else {
      var steps := TwoOnBracketedHost(host);
    }
  }

  /** What a `Start` that runs alone comes to, in every case: it is refused, or the error is put on
      record, or the tunnel runs with a new listener of the kind it asks for. */
  predicate Outcome(s: State, after: State, t: Tunnel, connects: bool, binds: bool) {
    var refused := AlreadyRunning(s, t.id) || Busy(s.running, t.localHost, t.localPort, t.id);
    var known := t.kind == "socks5" || t.kind == "dynamic" || t.kind == "local";
    && after.stops == s.stops && after.threads == s.threads
    && (refused || (connects && !known) ==> after.running == s.running && after.open == s.open)
    && (!refused && (!connects || (known && !binds)) ==>
          && after.open == s.open && t.id in after.running && after.running[t.id].status.StatusError?
          && Backends(after.running[t.id]) == {} && after.running - {t.id} == s.running - {t.id})
    && (!refused && connects && known && binds ==>
          && t.id in after.running && after.running[t.id].status.StatusRunning? && Serves(t, after.running[t.id])
          && after.open == s.open + Backends(after.running[t.id]) && after.running - {t.id} == s.running - {t.id})
  }

  lemma StartOutcome(s: State, t: Tunnel, connects: bool, binds: bool)
    ensures Outcome(s, StartAlone(s, t, connects, binds), t, connects, binds)
  {
    var after := StartAlone(s, t, connects, binds);
    assert t.id in after.running ==> s.running[t.id := after.running[t.id]] - {t.id} == s.running - {t.id};
  }

  // ----- what kind of backend runs -----

  /** The step makes the tunnel run. */
  predicate Publishes(s: State, step: Step, id: string)
    requires Enabled(s, step)
  {
    && step.Publish? && s.threads[step.tid].t.id == id
    && var t := s.threads[step.tid].t; !Busy(s.running, t.localHost, t.localPort, t.id)
  }

  /** A SOCKS tunnel has a SOCKS5 server and no forward, a local one the reverse, on the tunnel's
      own address; there are no others. */
  predicate Serves(t: Tunnel, rt: Runtime) {
    var host := if t.localHost == "" then "127.0.0.1" else t.localHost;
    || ((t.kind == "socks5" || t.kind == "dynamic") && rt.forward.None?
        && rt.socks5.Some? && rt.socks5.value.host == host && rt.socks5.value.port == t.localPort)
    || (t.kind == "local" && rt.socks5.None?
        && rt.forward.Some? && rt.forward.value.host == host && rt.forward.value.port == t.localPort)
  }

  ghost predicate AllServe(s: State) {
    forall tid :: tid in s.threads && s.threads[tid].Bound? ==>
                    Serves(s.threads[tid].t, s.threads[tid].rt) && s.threads[tid].rt.status.StatusRunning?
  }

  lemma AllServeStep(s: State, step: Step)
    requires AllServe(s) && Enabled(s, step)
    ensures AllServe(Apply(s, step))
  {
    StepKeeps(s, step);
  }

  /** The last Start of the run that published the tunnel. */
  function LastPublished(s: State, steps: seq<Step>, id: string): Option<Tunnel>
    requires IsRun(s, steps)
    decreases |steps|
  {
    if steps == [] then None
    else
      var later := LastPublished(Apply(s, steps[0]), steps[1..], id);
      if later.Some? then later
      else if Publishes(s, steps[0], id) then Some(s.threads[steps[0].tid].t)
      else None
  }

  lemma RunsAsBefore(s: State, step: Step, id: string)
    requires Enabled(s, step) && AlreadyRunning(Apply(s, step), id) && !Publishes(s, step, id)
    ensures AlreadyRunning(s, id) && Apply(s, step).running[id] == s.running[id]
  {
  }

  lemma {:induction false} RunsAsPublishedFrom(s: State, steps: seq<Step>, id: string)
    requires AllServe(s) && IsRun(s, steps) && AlreadyRunning(Final(s, steps), id)
    ensures var t := LastPublished(s, steps, id);
            if t.None? then AlreadyRunning(s, id) && Final(s, steps).running[id] == s.running[id]
            else t.value.id == id && Serves(t.value, Final(s, steps).running[id])
    decreases |steps|
  {
    if steps != [] {
      var next := Apply(s, steps[0]);
      AllServeStep(s, steps[0]);
      RunsAsPublishedFrom(next, steps[1..], id);
      if LastPublished(next, steps[1..], id).None? && !Publishes(s, steps[0], id) {
        RunsAsBefore(s, steps[0], id);
      }
    }
  }

  /** In every run, whatever runs was published by a Start, and runs with the backend its last one
      asked for: a SOCKS5 server for "socks5" and "dynamic", a forward for "local", and no tunnel of
      another kind ever runs. */
  lemma RunsAsPublished(steps: seq<Step>, id: string)
    requires IsRun(Init(), steps) && AlreadyRunning(Final(Init(), steps), id)
    ensures var t := LastPublished(Init(), steps, id);
            t.Some? && t.value.id == id && Serves(t.value, Final(Init(), steps).running[id])
  {
    RunsAsPublishedFrom(Init(), steps, id);
  }

  /** A tunnel that was started and runs has an address as a proxy exactly if it is a SOCKS one. */
  lemma ProxyAddressExactly(t: Tunnel, rt: Runtime)
    requires Serves(t, rt)
    ensures rt.socks5.Some? <==> t.kind == "socks5" || t.kind == "dynamic"
    ensures rt.forward.Some? <==> t.kind == "local"
  {
  }

  // ----- conservation of listeners -----

  ghost predicate Conserved(s: State) {
    forall b :: b in s.open ==> exists h :: b in Held(s, h)
  }

  /** The step would replace the record of a tunnel that still has a backend. */
  predicate Overwrites(s: State, step: Step)
    requires Enabled(s, step)
  {
    || (step.SetError? && Held(s, ByEntry(s.threads[step.tid].t.id)) != {})
    || (step.Publish? && Held(s, ByEntry(s.threads[step.tid].t.id)) != {}
        && var t := s.threads[step.tid].t; !Busy(s.running, t.localHost, t.localPort, t.id))
  }

  /** Where a backend that stays open goes in a step. */
  ghost function Destination(s: State, step: Step, h: Holder): Holder
    requires Enabled(s, step)
  {
    match step
    case Publish(tid) =>
      if h == ByThread(tid) && tid !in Apply(s, step).threads then ByEntry(s.threads[tid].t.id) else h
    case StopTake(tid, id) => if h == ByEntry(id) then ByThread(tid) else h
    case _ => h
  }

  lemma EntryHeldNext(s: State, step: Step, id: string, b: Backend)
    requires Enabled(s, step) && !Overwrites(s, step) && b in Held(s, ByEntry(id))
    ensures b in Held(Apply(s, step), Destination(s, step, ByEntry(id)))
  {
  }

  lemma OwnHeldNext(s: State, step: Step, b: Backend)
    requires Enabled(s, step) && b in Held(s, ByThread(step.tid)) && b in Apply(s, step).open
    ensures b in Held(Apply(s, step), Destination(s, step, ByThread(step.tid)))
  {
  }

  lemma HeldNext(s: State, step: Step, h: Holder, b: Backend)
    requires Enabled(s, step) && !Overwrites(s, step)
    requires b in Held(s, h) && b in Apply(s, step).open
    ensures b in Held(Apply(s, step), Destination(s, step, h))
  {
    match h
    case ByEntry(id) => EntryHeldNext(s, step, id, b);
    case ByThread(tid) =>
      if tid == step.tid { OwnHeldNext(s, step, b); } else { OtherThreads(s, step, tid); }
  }

  /** A listener that a step opens is with the goroutine that opened it. */
  lemma OpenedIsHeld(s: State, step: Step, b: Backend)
    requires Enabled(s, step) && b in Apply(s, step).open && b !in s.open
    ensures b in Held(Apply(s, step), ByThread(step.tid))
  {
  }

  lemma KeptWithoutOverwrite(s: State, step: Step)
    requires Conserved(s) && Enabled(s, step) && !Overwrites(s, step)
    ensures Conserved(Apply(s, step))
  {
    forall b | b in Apply(s, step).open
      ensures exists h :: b in Held(Apply(s, step), h)
    {
      if b !in s.open {
        OpenedIsHeld(s, step, b);
      } else {
        var h :| b in Held(s, h);
        HeldNext(s, step, h, b);
      }
    }
  }

  lemma LostByOverwrite(s: State, step: Step, b: Backend)
    requires Safe(s) && Enabled(s, step) && Overwrites(s, step)
    requires b in Held(s, ByEntry(s.threads[step.tid].t.id))
    ensures b in Apply(s, step).open && forall h :: b !in Held(Apply(s, step), h)
  {
    var s' := Apply(s, step);
    var id := s.threads[step.tid].t.id;
    assert b in s.open && s'.open == s.open;
    forall h | b in Held(s', h)
      ensures false
    {
      HeldAfter(s, step, h, b);
    }
  }

  /** A step keeps every open listener owned exactly when it does not overwrite a running entry. */
  lemma ConservedStep(s: State, step: Step)
    requires Safe(s) && Conserved(s) && Enabled(s, step)
    ensures Conserved(Apply(s, step)) <==> !Overwrites(s, step)
  {
    if Overwrites(s, step) {
      var b :| b in Held(s, ByEntry(s.threads[step.tid].t.id));
      LostByOverwrite(s, step, b);
    } else {
      KeptWithoutOverwrite(s, step);
    }
  }

  /** An open listener that nobody owns. */
  ghost predicate Leaked(s: State, b: Backend) { b in s.open && forall h :: b !in Held(s, h) }

  /** Nothing ever closes or adopts it again. */
  lemma LeakedStaysLeaked(s: State, step: Step, b: Backend)
    requires Safe(s) && Leaked(s, b) && Enabled(s, step)
    ensures Leaked(Apply(s, step), b)
  {
    ClosedByStep(s, step);
    assert b.serial < s.serial;
    forall h
      ensures b !in Held(Apply(s, step), h)
    {
      if b in Held(Apply(s, step), h) {
        HeldAfter(s, step, h, b);
      }
    }
  }

  /** Some step of the run overwrites an entry that has a backend. */
  predicate OverwritesIn(s: State, steps: seq<Step>)
    requires IsRun(s, steps)
    decreases |steps|
  {
    steps != [] && (Overwrites(s, steps[0]) || OverwritesIn(Apply(s, steps[0]), steps[1..]))
  }

  lemma {:induction false} LeakLasts(s: State, steps: seq<Step>, b: Backend)
    requires Safe(s) && IsRun(s, steps) && Leaked(s, b)
    ensures Leaked(Final(s, steps), b)
    decreases |steps|
  {
    if steps != [] {
      SafeStep(s, steps[0]);
      LeakedStaysLeaked(s, steps[0], b);
      LeakLasts(Apply(s, steps[0]), steps[1..], b);
    }
  }

  lemma {:induction false} ConservedRun(s: State, steps: seq<Step>)
    requires Safe(s) && Conserved(s) && IsRun(s, steps)
    ensures Conserved(Final(s, steps)) <==> !OverwritesIn(s, steps)
    decreases |steps|
  {
    if steps != [] {
      var next := Apply(s, steps[0]);
      SafeStep(s, steps[0]);
      ConservedStep(s, steps[0]);
      if Overwrites(s, steps[0]) {
        var b :| b in next.open && forall h :: b !in Held(next, h);
        LeakLasts(next, steps[1..], b);
      } else {
        ConservedRun(next, steps[1..]);
      }
    }
  }

  /** Over every run: all open listeners are owned at the end exactly when no step of the run
      overwrote an entry with a backend; what leaks stays leaked. */
  lemma ConservedExactly(steps: seq<Step>)
    requires IsRun(Init(), steps)
    ensures Conserved(Final(Init(), steps)) <==> !OverwritesIn(Init(), steps)
  {
    ConservedRun(Init(), steps);
  }

  predicate Starting(s: State, tid: nat, id: string) {
    tid in s.threads && !s.threads[tid].Closing? && s.threads[tid].t.id == id
  }

  /** The hypothesis: a `Start` is only entered while no other `Start` of its id is under way. */
  predicate NoOverlap(s: State, step: Step) {
    step.StartCheck? ==> forall tid :: tid in s.threads ==> !Starting(s, tid, step.t.id)
  }

  predicate IsSerialRun(s: State, steps: seq<Step>)
    decreases |steps|
  {
    steps == [] || (Enabled(s, steps[0]) && NoOverlap(s, steps[0]) && IsSerialRun(Apply(s, steps[0]), steps[1..]))
  }

  ghost predicate OneStartPerId(s: State) {
    && (forall t1, t2, id :: Starting(s, t1, id) && Starting(s, t2, id) ==> t1 == t2)
    && (forall tid, id :: Starting(s, tid, id) ==> !AlreadyRunning(s, id))
  }

  lemma OneStartPerIdStep(s: State, step: Step)
    requires Safe(s) && OneStartPerId(s) && Enabled(s, step) && NoOverlap(s, step)
    ensures OneStartPerId(Apply(s, step)) && !Overwrites(s, step)
  {
    var s' := Apply(s, step);
    forall tid, id | Starting(s', tid, id)
      ensures (Starting(s, tid, id) || (step.StartCheck? && step.tid == tid)) && !AlreadyRunning(s', id)
    {
      if step.Publish? { assert Starting(s, step.tid, s.threads[step.tid].t.id); }
    }
    if step.Publish? || step.SetError? { assert Starting(s, step.tid, s.threads[step.tid].t.id); }
  }

  lemma {:induction false} SerialRunConserves(s: State, steps: seq<Step>)
    requires Safe(s) && Conserved(s) && OneStartPerId(s) && IsSerialRun(s, steps)
    ensures IsRun(s, steps) && Safe(Final(s, steps)) && Conserved(Final(s, steps))
    decreases |steps|
  {
    if steps != [] {
      SafeStep(s, steps[0]);
      OneStartPerIdStep(s, steps[0]);
      ConservedStep(s, steps[0]);
      SerialRunConserves(Apply(s, steps[0]), steps[1..]);
    }
  }

  /** Listener conservation: when starts of one id never overlap, every open listener has exactly
      one owner at every moment, and once all calls have returned the open listeners are exactly
      the backends of the running entries. */
  lemma ListenersConserved(steps: seq<Step>)
    requires IsSerialRun(Init(), steps)
    ensures IsRun(Init(), steps)
    ensures var s := Final(Init(), steps);
            && (forall b :: b in s.open <==> exists h :: b in Held(s, h))
            && (forall h1, h2, b :: b in Held(s, h1) && b in Held(s, h2) ==> h1 == h2)
            && (s.threads.Keys == {} ==>
                  forall b :: b in s.open <==> exists id :: AlreadyRunning(s, id) && b in Backends(s.running[id]))
  {
    SerialRunConserves(Init(), steps);
    var s := Final(Init(), steps);
    if s.threads.Keys == {} {
      forall b
        ensures b in s.open <==> exists id :: AlreadyRunning(s, id) && b in Backends(s.running[id])
      {
        if b in s.open {
          var h :| b in Held(s, h);
          assert AlreadyRunning(s, h.id);
        }
        if id :| AlreadyRunning(s, id) && b in Backends(s.running[id]) {
          assert b in Held(s, ByEntry(id));
        }
      }
    }
  }

  lemma BothPassTheCheck(t: Tunnel) returns (steps: seq<Step>)
    ensures IsRun(Init(), steps)
    ensures forall i :: 0 <= i < |steps| && steps[i].StartCheck? ==> steps[i].t == t
    ensures Final(Init(), steps) == Init().(threads := map[0 := Connected(t), 1 := Connected(t)])
  {
    steps := Extend(Init(), [], StartCheck(0, t));
    steps := Extend(Init(), steps, StartCheck(1, t));
    steps := Extend(Init(), steps, Connect(0, true));
    steps := Extend(Init(), steps, Connect(1, true));
  }

  /** The first of the two has published its tunnel. */
  function OneUp(t: Tunnel, b: Backend): State {
    State(map[t.id := NewRuntime(t.kind, b)], {b}, multiset{}, 1, map[1 := Connected(t)])
  }

  lemma FirstPublishes(t: Tunnel, steps: seq<Step>) returns (longer: seq<Step>)
    requires Supported(t.kind) && CanListen({}, NormalizeBindHost(t.localHost), t.localPort)
    requires IsRun(Init(), steps)
    requires Final(Init(), steps) == Init().(threads := map[0 := Connected(t), 1 := Connected(t)])
    ensures longer == steps + [Bind(0, true), Publish(0)] && IsRun(Init(), longer)
    ensures Final(Init(), longer) == OneUp(t, Backend(0, NormalizeBindHost(t.localHost), t.localPort))
  {
    longer := Extend(Init(), steps, Bind(0, true));
    longer := Extend(Init(), longer, Publish(0));
  }

  lemma SecondFails(t: Tunnel, b: Backend, steps: seq<Step>) returns (longer: seq<Step>)
    requires Supported(t.kind) && IsRun(Init(), steps) && Final(Init(), steps) == OneUp(t, b)
    ensures longer == steps + [Bind(1, false), SetError(1)] && IsRun(Init(), longer)
    ensures Final(Init(), longer) == State(map[t.id := ERROR_ENTRY], {b}, multiset{}, 1, map[])
  {
    longer := Extend(Init(), steps, Bind(1, false));
    longer := Extend(Init(), longer, SetError(1));
  }

  lemma NobodyOwns(t: Tunnel, b: Backend)
    ensures var s := State(map[t.id := ERROR_ENTRY], {b}, multiset{}, 1, map[]);
            Leaked(s, b) && !Conserved(s) && s.threads.Keys == {} && !AlreadyRunning(s, t.id)
  {
    var s := State(map[t.id := ERROR_ENTRY], {b}, multiset{}, 1, map[]);
    assert forall h :: b !in Held(s, h);
  }

  /** Without the hypothesis: two overlapping starts of one tunnel, the second of which cannot
      bind, end with a listener that no entry and no goroutine owns. */
  lemma OverlappingStartsLeak(t: Tunnel) returns (steps: seq<Step>)
    requires Supported(t.kind) && CanListen({}, NormalizeBindHost(t.localHost), t.localPort)
    ensures IsRun(Init(), steps)
    ensures forall i :: 0 <= i < |steps| && steps[i].StartCheck? ==> steps[i].t == t
    ensures var s := Final(Init(), steps);
            s.threads.Keys == {} && s.open != {} && !Conserved(s) && !AlreadyRunning(s, t.id)
  {
    var b := Backend(0, NormalizeBindHost(t.localHost), t.localPort);
    steps := BothPassTheCheck(t);
    steps := FirstPublishes(t, steps);
    steps := SecondFails(t, b, steps);
    NobodyOwns(t, b);
  }

  /** Stopping a tunnel that was just started closes its listener and nothing else: everything
      is as before but for the entry, which is gone, and one more stop on record. */
  lemma StopUndoesStart(s: State, t: Tunnel, tid: nat)
    requires Safe(s) && tid !in s.threads && Supported(t.kind)
    requires !AlreadyRunning(s, t.id) && !Busy(s.running, t.localHost, t.localPort, t.id)
    ensures var s1 := StartAlone(s, t, true, true);
            && Enabled(s1, StopTake(tid, t.id)) && Enabled(Apply(s1, StopTake(tid, t.id)), StopClose(tid))
            && Apply(Apply(s1, StopTake(tid, t.id)), StopClose(tid)) ==
               s.(running := s.running - {t.id}, serial := s.serial + 1,
               stops := s.stops + multiset{Backend(s.serial, NormalizeBindHost(t.localHost), t.localPort)})
  {
    var s1 := StartAlone(s, t, true, true);
    var b := Backend(s.serial, NormalizeBindHost(t.localHost), t.localPort);
    assert Backends(s1.running[t.id]) == {b} && b !in s.open;
    assert s.open + {b} - {b} == s.open && multiset({b}) == multiset{b};
    assert s1.running - {t.id} == s.running - {t.id};
    assert s.threads[tid := Closing(s1.running[t.id])] - {tid} == s.threads;
  }

  // ----- a Start that fails -----

  /** A goroutine whose Start has failed and is not yet over. */
  predicate HasFailed(s: State, tid: nat, t: Tunnel) {
    tid in s.threads && (s.threads[tid] == Failing(t) || (s.threads[tid].Rollback? && s.threads[tid].t == t))
  }

  /** The step makes a Start fail: no connection, no listener, or an address taken meanwhile. */
  predicate Fails(s: State, step: Step, tid: nat, t: Tunnel)
    requires Enabled(s, step)
  {
    && step.tid == tid && tid in s.threads
    && match s.threads[tid]
       case Checked(u) => u == t && step == Connect(tid, false)
       case Connected(u) => u == t && step == Bind(tid, false) && t.kind in {"socks5", "dynamic", "local"}
       case Bound(u, _) => u == t && Busy(s.running, t.localHost, t.localPort, t.id)
       case _ => false
  }

  lemma FailedStep(s: State, step: Step, tid: nat, t: Tunnel)
    requires Enabled(s, step)
    ensures HasFailed(Apply(s, step), tid, t) <==>
            Fails(s, step, tid, t) || (HasFailed(s, tid, t) && step != SetError(tid))
    ensures HasFailed(s, tid, t) && step == SetError(tid) ==>
              t.id in Apply(s, step).running && Apply(s, step).running[t.id] == Runtime(StatusError, None, None)
  {
    if tid != step.tid { StepKeeps(s, step); }
  }

  /** Every Start that fails puts the error on record before it is over, whatever else happens. */
  lemma {:induction false} FailureIsRecorded(s: State, steps: seq<Step>, tid: nat, t: Tunnel)
    requires IsRun(s, steps) && HasFailed(s, tid, t)
    ensures HasFailed(Final(s, steps), tid, t) || SetError(tid) in steps
    decreases |steps|
  {
    if steps != [] {
      FailedStep(s, steps[0], tid, t);
      if steps[0] != SetError(tid) {
        FailureIsRecorded(Apply(s, steps[0]), steps[1..], tid, t);
        assert SetError(tid) in steps[1..] ==> SetError(tid) in steps;
      }
    }
  }

  /** Some step of the run makes the Start fail. */
  predicate FailsIn(s: State, steps: seq<Step>, tid: nat, t: Tunnel)
    requires IsRun(s, steps)
    decreases |steps|
  {
    steps != [] && (Fails(s, steps[0], tid, t) || FailsIn(Apply(s, steps[0]), steps[1..], tid, t))
  }

  /** And no other Start does so. */
  lemma {:induction false} OnlyFailuresAreRecorded(s: State, steps: seq<Step>, tid: nat, t: Tunnel)
    requires IsRun(s, steps) && HasFailed(Final(s, steps), tid, t)
    ensures HasFailed(s, tid, t) || FailsIn(s, steps, tid, t)
    decreases |steps|
  {
    if steps != [] {
      FailedStep(s, steps[0], tid, t);
      OnlyFailuresAreRecorded(Apply(s, steps[0]), steps[1..], tid, t);
    }
  }

  // ----- a Stop and a Start that is under way -----

  /** The step makes it run no more. */
  predicate Clears(s: State, step: Step, id: string)
    requires Enabled(s, step)
  {
    (step.StopTake? && step.id == id) || (step.SetError? && s.threads[step.tid].t.id == id)
  }

  predicate NeverCleared(s: State, steps: seq<Step>, id: string)
    requires IsRun(s, steps)
    decreases |steps|
  {
    steps == [] || (!Clears(s, steps[0], id) && NeverCleared(Apply(s, steps[0]), steps[1..], id))
  }

  /** Some step of the run publishes the tunnel and none after it clears it. */
  predicate PublishedLast(s: State, steps: seq<Step>, id: string)
    requires IsRun(s, steps)
    decreases |steps|
  {
    steps != [] &&
    (|| (Publishes(s, steps[0], id) && NeverCleared(Apply(s, steps[0]), steps[1..], id))
     || PublishedLast(Apply(s, steps[0]), steps[1..], id))
  }

  lemma RunningAfterPublish(s: State, tid: nat, id: string)
    requires Enabled(s, Publish(tid)) && SoundPc(s.threads[tid])
    ensures AlreadyRunning(Apply(s, Publish(tid)), id) <==> Publishes(s, Publish(tid), id) || AlreadyRunning(s, id)
  {
  }

  lemma RunningAfterOther(s: State, step: Step, id: string)
    requires Enabled(s, step) && !step.Publish?
    ensures AlreadyRunning(Apply(s, step), id) <==> AlreadyRunning(s, id) && !Clears(s, step, id)
  {
  }

  lemma RunningAfter(s: State, step: Step, id: string)
    requires WellFormed(s) && Enabled(s, step)
    ensures AlreadyRunning(Apply(s, step), id) <==>
            Publishes(s, step, id) || (AlreadyRunning(s, id) && !Clears(s, step, id))
  {
    if step.Publish? {
      RunningAfterPublish(s, step.tid, id);
    } else {
      RunningAfterOther(s, step, id);
    }
  }

  lemma {:induction false} RunningExactly(s: State, steps: seq<Step>, id: string)
    requires WellFormed(s) && IsRun(s, steps)
    ensures AlreadyRunning(Final(s, steps), id) <==>
            PublishedLast(s, steps, id) || (AlreadyRunning(s, id) && NeverCleared(s, steps, id))
    decreases |steps|
  {
    if steps != [] {
      RunningAfter(s, steps[0], id);
      WellFormedStep(s, steps[0]);
      RunningExactly(Apply(s, steps[0]), steps[1..], id);
    }
  }

  ghost predicate UnderWay(s: State, id: string) { exists tid :: Starting(s, tid, id) }

  /** No `Start` of the tunnel is entered. */
  predicate NoNewStart(steps: seq<Step>, id: string) {
    forall i :: 0 <= i < |steps| && steps[i].StartCheck? ==> steps[i].t.id != id
  }

  lemma UnderWayBefore(s: State, step: Step, id: string)
    requires Enabled(s, step) && (step.StartCheck? ==> step.t.id != id)
    ensures UnderWay(Apply(s, step), id) ==> UnderWay(s, id)
  {
    if tid :| Starting(Apply(s, step), tid, id) {
      StepKeeps(s, step);
      assert Starting(s, tid, id);
    }
  }

  lemma {:induction false} PublisherWasUnderWay(s: State, steps: seq<Step>, id: string)
    requires IsRun(s, steps) && NoNewStart(steps, id) && PublishedLast(s, steps, id)
    ensures UnderWay(s, id)
    decreases |steps|
  {
    if Publishes(s, steps[0], id) {
      assert Starting(s, steps[0].tid, id);
    } else {
      assert NoNewStart(steps[1..], id);
      PublisherWasUnderWay(Apply(s, steps[0]), steps[1..], id);
      UnderWayBefore(s, steps[0], id);
    }
  }

  /** A Stop followed by no new Start of the tunnel: in the end the tunnel runs exactly if it is
      published after the Stop and not cleared after that, which takes a Start that was under way
      when the Stop came. */
  lemma RunsAfterStop(s: State, tid: nat, id: string, steps: seq<Step>)
    requires WellFormed(s) && Enabled(s, StopTake(tid, id)) && IsRun(Apply(s, StopTake(tid, id)), steps)
    ensures var after := Apply(s, StopTake(tid, id));
            && (AlreadyRunning(Final(after, steps), id) <==> PublishedLast(after, steps, id))
            && (NoNewStart(steps, id) && AlreadyRunning(Final(after, steps), id) ==> UnderWay(s, id))
  {
    var after := Apply(s, StopTake(tid, id));
    WellFormedStep(s, StopTake(tid, id));
    RunningExactly(after, steps, id);
    if NoNewStart(steps, id) && PublishedLast(after, steps, id) {
      PublisherWasUnderWay(after, steps, id);
      UnderWayBefore(s, StopTake(tid, id), id);
    }
  }

  /** There is such a run: a Stop that meets a Start between its check and its publication returns
      at once, and the tunnel runs afterwards. */
  lemma StopMayMissAStart(t: Tunnel) returns (steps: seq<Step>)
    requires Supported(t.kind) && CanListen({}, NormalizeBindHost(t.localHost), t.localPort)
    ensures IsRun(Init(), steps) && StopTake(1, t.id) in steps
    ensures AlreadyRunning(Final(Init(), steps), t.id) && Final(Init(), steps).threads == map[]
  {
    steps := Extend(Init(), [], StartCheck(0, t));
    steps := Extend(Init(), steps, Connect(0, true));
    assert Final(Init(), steps) == Init().(threads := map[0 := Connected(t)]);
    var missed := Extend(Init(), steps, StopTake(1, t.id));
    assert StopTake(1, t.id) in missed by { assert missed[|steps|] == StopTake(1, t.id); }
    steps := ThenFinish(missed, Init(), 0, t);
  }

  /** The outcome of a `Stop` that runs alone. */
  lemma StopAlone(s: State, tid: nat, id: string)
    requires tid !in s.threads && id in s.running
    ensures var taken := Apply(s, StopTake(tid, id));
            && Enabled(taken, StopClose(tid))
            && Apply(taken, StopClose(tid)) ==
               s.(running := s.running - {id},
               open := s.open - Held(s, ByEntry(id)),
               stops := s.stops + multiset(Held(s, ByEntry(id))))
  {
    assert s.threads[tid := Closing(s.running[id])] - {tid} == s.threads;
  }

  function Only(b: Option<Backend>): set<Backend> { if b.Some? then {b.value} else {} }

  function StopOne(s: State, b: Option<Backend>): State {
    s.(open := s.open - Only(b), stops := s.stops + multiset(Only(b)))
  }

  lemma CountedApart(x: set<Backend>, y: set<Backend>)
    requires x !! y
    ensures multiset(x + y) == multiset(x) + multiset(y)
  {
  }

  lemma AddedInTurn(m: multiset<Backend>, x: multiset<Backend>, y: multiset<Backend>)
    ensures m + (x + y) == (m + x) + y
  {
  }

  lemma StoppedInTurn(s: State, rt: Runtime)
    requires rt.socks5.Some? && rt.forward.Some? ==> rt.socks5 != rt.forward
    ensures StopBackends(s, rt) == StopOne(StopOne(s, rt.socks5), rt.forward)
  {
    var x, y := Only(rt.socks5), Only(rt.forward);
    CountedApart(x, y);
    AddedInTurn(s.stops, multiset(x), multiset(y));
    assert Backends(rt) == x + y && s.open - (x + y) == s.open - x - y;
  }

  lemma StopsSingle(s: State, b: Backend)
    ensures StopOne(s, Some(b)) == s.(open := s.open - {b}, stops := s.stops + multiset{b})
  {
    assert multiset({b}) == multiset{b};
  }

  lemma StopsNone(s: State)
    ensures StopOne(s, None) == s
  {
  }

  datatype StatsResult = NotRunning | NoBackend | Stats(bindAddr: string)

  /** The manager object. `running` is its own field; the others stand for the machine around it:
      the open listeners, the stops performed so far, and the goroutines inside its methods. */
  class Manager {
    var running: map<string, Runtime>
    var open: set<Backend>
    var stops: multiset<Backend>
    var serial: nat
    var threads: map<nat, Pc>

    ghost function View(): State
      reads this
    {
      State(running, open, stops, serial, threads)
    }

    constructor ()
      ensures View() == Init()
    {
      running, open, stops, serial, threads := map[], {}, multiset{}, 0, map[];
    }

    /** Visits the entries in any order, as ranging over a Go map does. */
    method RunningBindConflict(host: string, port: int, excluded: string) returns (conflict: Option<string>)
      ensures conflict.None? <==> !Busy(running, host, port, excluded)
      ensures conflict.Some? ==>
                && conflict.value in running && conflict.value != excluded
                && Clashes(running[conflict.value], host, port)
    {
      var wanted := NormalizeBindHost(host);
      var todo := running.Keys;
      while todo != {}
        invariant todo <= running.Keys
        invariant forall id :: id in running && id != excluded && Clashes(running[id], host, port) ==> id in todo
        decreases todo
      {
        var id :| id in todo;
        todo := todo - {id};
        var rt := running[id];
        if id != excluded && rt.status.StatusRunning? && BackendOf(rt).Some? {
          var b := BackendOf(rt).value;
          var parts := SplitHostPort(BindAddr(b.host, b.port));
          if parts.Some? && NormalizeBindHost(parts.value.0) == wanted && AtoiPort(parts.value.1) == port {
            return Some(id);
          }
        }
      }
      return None;
    }

    /** First lock region of `Start`. */
    method StartCheckRegion(tid: nat, t: Tunnel) returns (ok: bool)
      requires Enabled(View(), StartCheck(tid, t))
      modifies this
      ensures View() == Apply(old(View()), StartCheck(tid, t))
      ensures ok <==> tid in threads
    {
      if t.id in running && running[t.id].status.StatusRunning? {
        return false;
      }
      var conflict := RunningBindConflict(t.localHost, t.localPort, t.id);
      ok := conflict.None?;
      if ok {
        threads := threads[tid := Checked(t)];
      }
    }

    /** Outside the lock: the SSH connection, which may fail. */
    method ConnectCall(tid: nat, ok: bool)
      requires Enabled(View(), Connect(tid, ok))
      modifies this
      ensures View() == Apply(old(View()), Connect(tid, ok))
    {
      var t := threads[tid].t;
      threads := threads[tid := if ok then Connected(t) else Failing(t)];
    }

    /** Outside the lock: opening the listener, which may fail. */
    method BindCall(tid: nat, ok: bool)
      requires Enabled(View(), Bind(tid, ok))
      modifies this
      ensures View() == Apply(old(View()), Bind(tid, ok))
    {
      var t := threads[tid].t;
      if !Supported(t.kind) {
        threads := threads - {tid};
      } else if !ok {
        threads := threads[tid := Failing(t)];
      } else {
        var b := Backend(serial, NormalizeBindHost(t.localHost), t.localPort);
        open, serial := open + {b}, serial + 1;
        threads := threads[tid := Bound(t, NewRuntime(t.kind, b))];
      }
    }

    /** Second lock region of `Start`. */
    method PublishRegion(tid: nat) returns (ok: bool)
      requires Enabled(View(), Publish(tid))
      modifies this
      ensures View() == Apply(old(View()), Publish(tid))
      ensures ok <==> tid !in threads
    {
      var Bound(t, rt) := threads[tid];
      var conflict := RunningBindConflict(t.localHost, t.localPort, t.id);
      ok := conflict.None?;
      if ok {
        running := running[t.id := rt];
        threads := threads - {tid};
      } else {
        threads := threads[tid := Rollback(t, rt)];
      }
    }

    method StopBackend(b: Option<Backend>)
      modifies this`open, this`stops
      ensures View() == StopOne(old(View()), b)
    {
      if b.Some? {
        StopsSingle(View(), b.value);
        open, stops := open - {b.value}, stops + multiset{b.value};
      } else {
        StopsNone(View());
      }
    }

    method StopRecord(rt: Runtime)
      requires rt.socks5.Some? && rt.forward.Some? ==> rt.socks5 != rt.forward
      modifies this`open, this`stops
      ensures View() == StopBackends(old(View()), rt)
    {
      StoppedInTurn(View(), rt);
      StopBackend(rt.socks5);
      StopBackend(rt.forward);
    }

    method UndoCall(tid: nat)
      requires WellFormed(View()) && Enabled(View(), Undo(tid))
      modifies this
      ensures View() == Apply(old(View()), Undo(tid))
    {
      var Rollback(t, rt) := threads[tid];
      StopRecord(rt);
      threads := threads[tid := Failing(t)];
    }

    method SetErrorRegion(tid: nat)
      requires Enabled(View(), SetError(tid))
      modifies this
      ensures View() == Apply(old(View()), SetError(tid))
    {
      running := running[threads[tid].t.id := ERROR_ENTRY];
      threads := threads - {tid};
    }

    /** What is left of a `Start` once it is connected. */
    method FinishStart(tid: nat, t: Tunnel, binds: bool) returns (ok: bool)
      requires tid in threads && threads[tid] == Connected(t)
      requires binds ==> CanListen(open, NormalizeBindHost(t.localHost), t.localPort)
      requires !AlreadyRunning(View(), t.id) && !Busy(running, t.localHost, t.localPort, t.id)
      modifies this
      ensures View() == StartAlone(old(View()).(threads := old(threads) - {tid}), t, true, binds)
      ensures ok <==> AlreadyRunning(View(), t.id)
    {
      BindCall(tid, binds);
      if !Supported(t.kind) {
        return false;
      }
      if !binds {
        SetErrorRegion(tid);
        return false;
      }
      ok := PublishRegion(tid);
    }

    /** A whole `Start` that no other goroutine interrupts; the two flags say how the SSH
        connection and the bind turn out. */
    method Start(tid: nat, t: Tunnel, connects: bool, binds: bool) returns (ok: bool)
      requires tid !in threads
      requires binds ==> CanListen(open, NormalizeBindHost(t.localHost), t.localPort)
      modifies this
      ensures View() == StartAlone(old(View()), t, connects, binds)
      ensures ok <==> !old(AlreadyRunning(View(), t.id)) && AlreadyRunning(View(), t.id)
      ensures Outcome(old(View()), View(), t, connects, binds)
    {
      StartOutcome(View(), t, connects, binds);
      ok := StartCheckRegion(tid, t);
      if !ok {
        return false;
      }
      ConnectCall(tid, connects);
      if !connects {
        SetErrorRegion(tid);
        assert threads == old(threads);
        return false;
      }
      assert threads - {tid} == old(threads);
      ok := FinishStart(tid, t, binds);
    }

    method StopTakeRegion(tid: nat, id: string) returns (found: bool)
      requires Enabled(View(), StopTake(tid, id))
      modifies this
      ensures View() == Apply(old(View()), StopTake(tid, id))
      ensures found <==> tid in threads
    {
      found := id in running;
      if found {
        threads := threads[tid := Closing(running[id])];
        running := running - {id};
      }
    }

    method StopCloseCall(tid: nat)
      requires WellFormed(View()) && Enabled(View(), StopClose(tid))
      modifies this
      ensures View() == Apply(old(View()), StopClose(tid))
    {
      StopRecord(threads[tid].rt);
      threads := threads - {tid};
    }

    /** A whole `Stop` that no other goroutine interrupts. */
    method Stop(tid: nat, id: string)
      requires WellFormed(View()) && tid !in threads
      modifies this
      ensures threads == old(threads)
      ensures running == old(running) - {id}
      ensures open == old(open) - old(Held(View(), ByEntry(id)))
      ensures stops == old(stops) + multiset(old(Held(View(), ByEntry(id))))
    {
      ghost var s := View();
      WellFormedStep(s, StopTake(tid, id));
      var found := StopTakeRegion(tid, id);
      if found {
        StopAlone(s, tid, id);
        StopCloseCall(tid);
      } else {
        assert s.running - {id} == s.running;
      }
    }

    method BindAddrOf(id: string) returns (addr: Option<string>)
      ensures addr.Some? <==> AlreadyRunning(View(), id) && running[id].socks5.Some?
      ensures addr.Some? ==> addr.value == BindAddr(running[id].socks5.value.host, running[id].socks5.value.port)
    {
      if id !in running || !running[id].status.StatusRunning? || running[id].socks5.None? {
        return None;
      }
      var b := running[id].socks5.value;
      return Some(BindAddr(b.host, b.port));
    }

    /** In every reachable state the last error of `Stats` is unreachable. */
    method StatsOf(id: string) returns (r: StatsResult)
      requires Safe(View())
      ensures !r.NoBackend?
      ensures r.NotRunning? <==> !AlreadyRunning(View(), id)
      ensures r.Stats? ==>
                && BackendOf(running[id]).Some?
                && var b := BackendOf(running[id]).value; r.bindAddr == BindAddr(b.host, b.port)
    {
      if id !in running || !running[id].status.StatusRunning? {
        return NotRunning;
      }
      var rt := running[id];
      if rt.socks5.Some? {
        return Stats(BindAddr(rt.socks5.value.host, rt.socks5.value.port));
      }
      if rt.forward.Some? {
        return Stats(BindAddr(rt.forward.value.host, rt.forward.value.port));
      }
      return NoBackend;
    }
  }
}
