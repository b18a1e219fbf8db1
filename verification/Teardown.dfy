/** How one SSH connection ends: its monitor, any number of keepalive probes and any number of
    user disconnects race to tear it down. Each lock region and each call between two lock
    regions is one step. */
module Teardown {
  datatype Pc =
    | MonitorNew                  // started, has not read the client yet
    | MonitorWait                 // inside client.Wait
    | Probing                     // keepalive request sent
    | ProbeOk                     // keepalive answered
    | LostCheck                   // entering handleConnectionLost
    | LostNotify | LostUnmap | LostClose
    | DiscClear                   // Disconnect has removed the map entry
    | DiscClose(had: bool)        // Disconnect has taken the client out

  /** `lost` counts calls of the connection-lost handler, `disconnects` successful Disconnects,
      `closes` calls of Close on the client; `crashed` says the monitor met a nil client. */
  datatype State = State(
    mapped: bool, connected: bool, client: bool,
    closes: nat, lost: nat, disconnects: nat, crashed: bool,
    threads: map<nat, Pc>)

  datatype Step =
    | MonitorRead(g: nat)
    | MonitorEnd(g: nat)
    | ProbeStart(g: nat)
    | ProbeReply(g: nat, ok: bool)
    | ProbeTouch(g: nat)
    | LoseCheck(g: nat)
    | LoseNotify(g: nat)
    | LoseUnmap(g: nat)
    | LoseClose(g: nat)
    | DisconnectTake(g: nat)
    | DisconnectClear(g: nat)
    | DisconnectClose(g: nat)

  /** Just after `Connect` has stored the connection and started its monitor. */
  function Init(): State {
    State(true, true, true, 0, 0, 0, false, map[0 := MonitorNew])
  }

  predicate At(s: State, g: nat, pc: Pc) { g in s.threads && s.threads[g] == pc }

  predicate Enabled(s: State, step: Step) {
    match step
    case MonitorRead(g) => At(s, g, MonitorNew)
    case MonitorEnd(g) => At(s, g, MonitorWait)
    case ProbeStart(g) => g !in s.threads
    case ProbeReply(g, _) => At(s, g, Probing)
    case ProbeTouch(g) => At(s, g, ProbeOk)
    case LoseCheck(g) => At(s, g, LostCheck)
    case LoseNotify(g) => At(s, g, LostNotify)
    case LoseUnmap(g) => At(s, g, LostUnmap)
    case LoseClose(g) => At(s, g, LostClose)
    case DisconnectTake(g) => g !in s.threads
    case DisconnectClear(g) => At(s, g, DiscClear)
    case DisconnectClose(g) => g in s.threads && s.threads[g].DiscClose?
  }

  function Goto(s: State, g: nat, pc: Pc): State { s.(threads := s.threads[g := pc]) }

  function Done(s: State, g: nat): State { s.(threads := s.threads - {g}) }

  function Apply(s: State, step: Step): State
    requires Enabled(s, step)
  {
    match step
    case MonitorRead(g) => if s.client then Goto(s, g, MonitorWait) else Done(s.(crashed := true), g)
    case MonitorEnd(g) => Goto(s, g, LostCheck)
    case ProbeStart(g) => if s.connected && s.client then Goto(s, g, Probing) else s
    case ProbeReply(g, ok) => Goto(s, g, if ok then ProbeOk else LostCheck)
    case ProbeTouch(g) => Done(s, g)
    case LoseCheck(g) => if s.connected then Goto(s.(connected := false), g, LostNotify) else Done(s, g)
    case LoseNotify(g) => Goto(s.(lost := s.lost + 1), g, LostUnmap)
    case LoseUnmap(g) => Goto(s.(mapped := false), g, LostClose)
    case LoseClose(g) =>
      Done(if s.client then s.(closes := s.closes + 1, client := false) else s, g)
    case DisconnectTake(g) => if s.mapped then Goto(s.(mapped := false), g, DiscClear) else s
    case DisconnectClear(g) => Goto(s.(connected := false, client := false), g, DiscClose(s.client))
    case DisconnectClose(g) =>
      var t := s.(disconnects := s.disconnects + 1);
      Done(if s.threads[g].had then t.(closes := t.closes + 1) else t, g)
  }

  predicate IsRun(s: State, steps: seq<Step>)
    decreases |steps|
  {
    steps == [] || (Enabled(s, steps[0]) && IsRun(Apply(s, steps[0]), steps[1..]))
  }

  function Final(s: State, steps: seq<Step>): State
    requires IsRun(s, steps)
    decreases |steps|
  {
    if steps == [] then s else Final(Apply(s, steps[0]), steps[1..])
  }

  // ----- the invariant -----

  predicate Handling(pc: Pc) { pc.LostNotify? || pc.LostUnmap? || pc.LostClose? }

  predicate Disconnecting(pc: Pc) { pc.DiscClear? || pc.DiscClose? }

  /** At most one goroutine is past the state check of handleConnectionLost, and the handler
      fires in that goroutine only. */
  ghost predicate OneHandler(s: State) {
    && (s.connected ==> s.lost == 0 && forall g :: g in s.threads ==> !Handling(s.threads[g]))
    && (forall g, h :: g in s.threads && h in s.threads && Handling(s.threads[g]) && Handling(s.threads[h]) ==> g == h)
    && (forall g :: At(s, g, LostNotify) ==> s.lost == 0)
    && s.lost <= 1
  }

  /** At most one goroutine has taken the map entry away to disconnect. */
  ghost predicate OneDisconnect(s: State) {
    && (s.mapped ==> s.disconnects == 0 && forall g :: g in s.threads ==> !Disconnecting(s.threads[g]))
    && (forall g, h ::
          (g in s.threads && h in s.threads && Disconnecting(s.threads[g]) && Disconnecting(s.threads[h])) ==> g == h)
    && (forall g :: g in s.threads && Disconnecting(s.threads[g]) ==> s.disconnects == 0)
    && s.disconnects <= 1
  }

  /** A disconnecting goroutine is about to close the client it took out. */
  predicate Closing(s: State, g: nat) { At(s, g, DiscClose(true)) }

  /** The open client is in the connection, in the hands of one disconnecting goroutine, or closed. */
  ghost predicate OneClose(s: State) {
    && (s.connected ==> s.client)
    && (s.client ==> s.closes == 0 && forall g :: !Closing(s, g))
    && (forall g :: Closing(s, g) ==> s.closes == 0)
    && (!s.client && s.closes == 0 ==> exists g :: Closing(s, g))
    && s.closes <= 1
  }

  /** Whatever is still to be torn down has a goroutine under way that will do it. */
  ghost predicate Pending(s: State) {
    LossPending(s) && UnmapPending(s) && ClosePending(s) && ReportPending(s)
  }

  ghost predicate LossPending(s: State) {
    s.connected ==> exists g :: At(s, g, MonitorNew) || At(s, g, MonitorWait) || At(s, g, LostCheck)
  }

  ghost predicate UnmapPending(s: State) {
    s.mapped && !s.connected ==> exists g :: At(s, g, LostNotify) || At(s, g, LostUnmap)
  }

  ghost predicate ClosePending(s: State) {
    !s.mapped && s.client ==> exists g :: At(s, g, DiscClear) || At(s, g, LostClose)
  }

  ghost predicate ReportPending(s: State) {
    !s.connected && s.lost + s.disconnects == 0 ==>
      exists g :: g in s.threads && (s.threads[g] == LostNotify || Disconnecting(s.threads[g]))
  }

  ghost predicate Inv(s: State) {
    OneHandler(s) && OneDisconnect(s) && OneClose(s) && Pending(s)
  }

  /** A step moves one goroutine only. */
  lemma Frame(s: State, step: Step)
    requires Enabled(s, step)
    ensures forall g :: g != step.g ==> (g in Apply(s, step).threads <==> g in s.threads)
    ensures forall g :: g != step.g && g in s.threads ==> Apply(s, step).threads[g] == s.threads[g]
  {
  }

  lemma StaysAt(s: State, step: Step, g: nat, pc: Pc)
    requires Enabled(s, step) && g != step.g && At(s, g, pc)
    ensures At(Apply(s, step), g, pc)
  {
    Frame(s, step);
  }

  lemma HandlersAfter(s: State, step: Step)
    requires Enabled(s, step)
    ensures forall g :: g in Apply(s, step).threads && Handling(Apply(s, step).threads[g]) ==>
                          || (g in s.threads && Handling(s.threads[g]))
                          || (g == step.g && step.LoseCheck? && s.connected)
    ensures forall g :: At(Apply(s, step), g, LostNotify) && g != step.g ==> At(s, g, LostNotify)
    ensures At(Apply(s, step), step.g, LostNotify) ==> step.LoseCheck? && s.connected
    ensures Apply(s, step).connected ==> s.connected && !step.LoseCheck?
    ensures Apply(s, step).lost == s.lost + if step.LoseNotify? then 1 else 0
    ensures step.LoseNotify? ==> At(s, step.g, LostNotify)
  {
    Frame(s, step);
  }

  lemma OneHandlerStep(s: State, step: Step)
    requires OneHandler(s) && Enabled(s, step)
    ensures OneHandler(Apply(s, step))
  {
    HandlersAfter(s, step);
  }

  lemma DisconnectersAfter(s: State, step: Step)
    requires Enabled(s, step)
    ensures forall g :: g in Apply(s, step).threads && Disconnecting(Apply(s, step).threads[g]) ==>
                          || (g in s.threads && Disconnecting(s.threads[g]))
                          || (g == step.g && step.DisconnectTake? && s.mapped)
    ensures step.DisconnectClose? ==> step.g !in Apply(s, step).threads && Disconnecting(s.threads[step.g])
    ensures Apply(s, step).mapped ==> s.mapped && !step.DisconnectTake?
    ensures Apply(s, step).disconnects == s.disconnects + if step.DisconnectClose? then 1 else 0
  {
  }

  lemma OneDisconnectStep(s: State, step: Step)
    requires OneDisconnect(s) && Enabled(s, step)
    ensures OneDisconnect(Apply(s, step))
  {
    DisconnectersAfter(s, step);
  }

  lemma ClosersAfter(s: State, step: Step)
    requires Enabled(s, step)
    ensures forall g :: Closing(Apply(s, step), g) ==>
                          (Closing(s, g) && g != step.g) || (g == step.g && step.DisconnectClear? && s.client)
    ensures forall g :: Closing(s, g) && g != step.g ==> Closing(Apply(s, step), g)
    ensures step.DisconnectClear? && s.client ==> Closing(Apply(s, step), step.g)
    ensures var closes := (step.LoseClose? && s.client) || Closing(s, step.g);
            Apply(s, step).closes == s.closes + if closes then 1 else 0
  {
    Frame(s, step);
  }

  lemma OneCloseStep(s: State, step: Step)
    requires OneHandler(s) && OneDisconnect(s) && OneClose(s) && Enabled(s, step)
    ensures OneClose(Apply(s, step))
  {
    var t := Apply(s, step);
    ClosersAfter(s, step);
    assert forall g, h :: Closing(s, g) && Closing(s, h) ==> g == h;
    if !t.client && t.closes == 0 {
      if step.DisconnectClear? && s.client {
        assert Closing(t, step.g);
      } else {
        var g :| Closing(s, g);
        assert g != step.g;
      }
    }
  }

  lemma LossPendingStep(s: State, step: Step)
    requires LossPending(s) && OneClose(s) && Enabled(s, step)
    ensures LossPending(Apply(s, step))
  {
    var t := Apply(s, step);
    if t.connected {
      assert s.connected;
      var g :| At(s, g, MonitorNew) || At(s, g, MonitorWait) || At(s, g, LostCheck);
      if g == step.g {
        assert step.MonitorRead? ==> At(t, g, MonitorWait);
        assert step.MonitorEnd? ==> At(t, g, LostCheck);
      } else {
        StaysAt(s, step, g, s.threads[g]);
      }
    }
  }

  lemma UnmapPendingStep(s: State, step: Step)
    requires UnmapPending(s) && OneDisconnect(s) && Enabled(s, step)
    ensures UnmapPending(Apply(s, step))
  {
    var t := Apply(s, step);
    if t.mapped && !t.connected {
      assert s.mapped && !step.DisconnectClear?;
      if s.connected {
        assert At(t, step.g, LostNotify);
      } else {
        var g :| At(s, g, LostNotify) || At(s, g, LostUnmap);
        if g == step.g {
          assert At(t, g, LostUnmap);
        } else {
          StaysAt(s, step, g, s.threads[g]);
        }
      }
    }
  }

  lemma ClosePendingStep(s: State, step: Step)
    requires ClosePending(s) && Enabled(s, step)
    ensures ClosePending(Apply(s, step))
  {
    var t := Apply(s, step);
    if !t.mapped && t.client {
      if s.mapped {
        assert At(t, step.g, if step.LoseUnmap? then LostClose else DiscClear);
      } else {
        var g :| At(s, g, DiscClear) || At(s, g, LostClose);
        assert g != step.g;
        StaysAt(s, step, g, s.threads[g]);
      }
    }
  }

  lemma ReportPendingStep(s: State, step: Step)
    requires ReportPending(s) && Enabled(s, step)
    ensures ReportPending(Apply(s, step))
  {
    var t := Apply(s, step);
    if !t.connected && t.lost + t.disconnects == 0 {
      if s.connected || step.DisconnectClear? {
        assert t.threads[step.g] == LostNotify || Disconnecting(t.threads[step.g]);
      } else {
        var g :| g in s.threads && (s.threads[g] == LostNotify || Disconnecting(s.threads[g]));
        assert g != step.g;
        Frame(s, step);
      }
    }
  }

  lemma PendingStep(s: State, step: Step)
    requires Inv(s) && Enabled(s, step)
    ensures Pending(Apply(s, step))
  {
    LossPendingStep(s, step);
    UnmapPendingStep(s, step);
    ClosePendingStep(s, step);
    ReportPendingStep(s, step);
  }

  lemma InvStep(s: State, step: Step)
    requires Inv(s) && Enabled(s, step)
    ensures Inv(Apply(s, step))
  {
    OneHandlerStep(s, step);
    OneDisconnectStep(s, step);
    OneCloseStep(s, step);
    PendingStep(s, step);
  }

  lemma {:induction false} InvRun(s: State, steps: seq<Step>)
    requires Inv(s) && IsRun(s, steps)
    ensures Inv(Final(s, steps))
    decreases |steps|
  {
    if steps != [] {
      InvStep(s, steps[0]);
      InvRun(Apply(s, steps[0]), steps[1..]);
    }
  }

  lemma InitInv()
    ensures Inv(Init())
  {
    assert At(Init(), 0, MonitorNew);
  }

  /** Exactly-once teardown, for any number of racing probes and disconnects: the lost handler
      fires at most once, at most one Disconnect succeeds, the client is never closed twice, a
      mapped connection that is no longer connected has its lost handler still under way, and once
      every goroutine has finished the connection is out of the map, not connected, without a
      client, the client closed exactly once, and somebody was told. */
  lemma TornDownOnce(steps: seq<Step>)
    requires IsRun(Init(), steps)
    ensures var s := Final(Init(), steps);
            && s.lost <= 1 && s.disconnects <= 1 && s.closes <= 1
            && (s.mapped && !s.connected ==> exists g :: At(s, g, LostNotify) || At(s, g, LostUnmap))
            && (s.threads.Keys == {} ==>
                  !s.mapped && !s.connected && !s.client && s.closes == 1 && s.lost + s.disconnects >= 1)
  {
    InitInv();
    InvRun(Init(), steps);
    var s := Final(Init(), steps);
    assert forall g :: g in s.threads ==> g in s.threads.Keys;
  }

  lemma {:induction false} Extend(s: State, steps: seq<Step>, step: Step) returns (longer: seq<Step>)
    requires IsRun(s, steps) && Enabled(Final(s, steps), step)
    ensures longer == steps + [step]
    ensures IsRun(s, longer) && Final(s, longer) == Apply(Final(s, steps), step)
    decreases |steps|
  {
    longer := steps + [step];
    if steps == [] {
      assert longer[1..] == [];
    } else {
      var tail := Extend(Apply(s, steps[0]), steps[1..], step);
      assert longer[1..] == tail;
    }
  }

  lemma LossAndDisconnectOverlap() returns (steps: seq<Step>)
    ensures IsRun(Init(), steps)
    ensures Final(Init(), steps) == State(false, false, true, 0, 0, 0, false, map[0 := LostNotify, 1 := DiscClear])
  {
    steps := Extend(Init(), [], MonitorRead(0));
    steps := Extend(Init(), steps, MonitorEnd(0));
    steps := Extend(Init(), steps, LoseCheck(0));
    steps := Extend(Init(), steps, DisconnectTake(1));
  }

  /** The two reports are not exclusive: one and the same loss may both fire the handler and let a
      Disconnect succeed. */
  lemma HandlerAndDisconnectMayBothReport() returns (steps: seq<Step>)
    ensures IsRun(Init(), steps)
    ensures var s := Final(Init(), steps); s.threads.Keys == {} && s.lost == 1 && s.disconnects == 1 && s.closes == 1
  {
    steps := LossAndDisconnectOverlap();
    steps := Extend(Init(), steps, DisconnectClear(1));
    steps := Extend(Init(), steps, DisconnectClose(1));
    assert Final(Init(), steps) == State(false, false, false, 1, 0, 1, false, map[0 := LostNotify]);
    steps := Extend(Init(), steps, LoseNotify(0));
    steps := Extend(Init(), steps, LoseUnmap(0));
    steps := Extend(Init(), steps, LoseClose(0));
    assert Final(Init(), steps) == State(false, false, false, 1, 1, 1, false, map[]);
  }

  // ----- exactly when both report, and when the monitor crashes -----

  /** Some check of handleConnectionLost in the run found the connection connected. */
  predicate LossFound(s: State, steps: seq<Step>)
    requires IsRun(s, steps)
    decreases |steps|
  {
    steps != [] && ((steps[0].LoseCheck? && s.connected) || LossFound(Apply(s, steps[0]), steps[1..]))
  }

  /** Some Disconnect in the run found the connection mapped. */
  predicate DisconnectFound(s: State, steps: seq<Step>)
    requires IsRun(s, steps)
    decreases |steps|
  {
    steps != [] && ((steps[0].DisconnectTake? && s.mapped) || DisconnectFound(Apply(s, steps[0]), steps[1..]))
  }

  /** The handler has fired or is about to. */
  ghost predicate HandlerDue(s: State) { s.lost >= 1 || exists g :: At(s, g, LostNotify) }

  /** A Disconnect has succeeded or is about to. */
  ghost predicate DisconnectDue(s: State) {
    s.disconnects >= 1 || exists g :: g in s.threads && Disconnecting(s.threads[g])
  }

  lemma HandlerDueStep(s: State, step: Step)
    requires Enabled(s, step)
    ensures HandlerDue(Apply(s, step)) <==> HandlerDue(s) || (step.LoseCheck? && s.connected)
  {
    var t := Apply(s, step);
    HandlersAfter(s, step);
    if step.LoseCheck? && s.connected {
      assert At(t, step.g, LostNotify);
    } else if g :| At(s, g, LostNotify) {
      if g == step.g {
        assert t.lost >= 1;
      } else {
        StaysAt(s, step, g, LostNotify);
      }
    }
  }

  lemma DisconnectDueStep(s: State, step: Step)
    requires Enabled(s, step)
    ensures DisconnectDue(Apply(s, step)) <==> DisconnectDue(s) || (step.DisconnectTake? && s.mapped)
  {
    var t := Apply(s, step);
    DisconnectersAfter(s, step);
    if step.DisconnectTake? && s.mapped {
      assert Disconnecting(t.threads[step.g]);
    } else if g :| g in s.threads && Disconnecting(s.threads[g]) {
      if g == step.g {
        assert t.disconnects >= 1 || Disconnecting(t.threads[g]);
      } else {
        Frame(s, step);
      }
    }
  }

  lemma {:induction false} DueRun(s: State, steps: seq<Step>)
    requires IsRun(s, steps)
    ensures HandlerDue(Final(s, steps)) <==> HandlerDue(s) || LossFound(s, steps)
    ensures DisconnectDue(Final(s, steps)) <==> DisconnectDue(s) || DisconnectFound(s, steps)
    decreases |steps|
  {
    if steps != [] {
      HandlerDueStep(s, steps[0]);
      DisconnectDueStep(s, steps[0]);
      DueRun(Apply(s, steps[0]), steps[1..]);
    }
  }

  /** In every run the handler fires, or is due, exactly if some check found the connection
      connected; and a Disconnect succeeds, or is due, exactly if one found it mapped. So once all
      have finished both have reported exactly if both were found. */
  lemma ReportsExactly(steps: seq<Step>)
    requires IsRun(Init(), steps)
    ensures var s := Final(Init(), steps);
            && (HandlerDue(s) <==> LossFound(Init(), steps))
            && (DisconnectDue(s) <==> DisconnectFound(Init(), steps))
            && (s.threads.Keys == {} ==>
                  && (s.lost == 1 <==> LossFound(Init(), steps))
                  && (s.disconnects == 1 <==> DisconnectFound(Init(), steps)))
  {
    DueRun(Init(), steps);
    InitInv();
    InvRun(Init(), steps);
    var s := Final(Init(), steps);
    assert forall g :: g in s.threads ==> g in s.threads.Keys;
  }

  // ----- what brings a loss about -----

  /** The transport has ended, or a keepalive was not answered. */
  predicate Cause(step: Step) { step.MonitorEnd? || (step.ProbeReply? && !step.ok) }

  predicate CauseIn(steps: seq<Step>) { exists i :: 0 <= i < |steps| && Cause(steps[i]) }

  lemma CauseInTail(steps: seq<Step>)
    requires steps != []
    ensures CauseIn(steps) <==> Cause(steps[0]) || CauseIn(steps[1..])
  {
    if i :| 0 <= i < |steps| && Cause(steps[i]) {
      assert i == 0 || steps[1..][i - 1] == steps[i];
    }
    if i :| 0 <= i < |steps| - 1 && Cause(steps[1..][i]) {
      assert steps[i + 1] == steps[1..][i];
    }
  }

  ghost predicate CheckDue(s: State) { exists g :: At(s, g, LostCheck) }

  /** Without a cause nobody comes to the check. */
  lemma CheckDueBefore(s: State, step: Step)
    requires Enabled(s, step) && !Cause(step) && CheckDue(Apply(s, step))
    ensures CheckDue(s)
  {
    var g :| At(Apply(s, step), g, LostCheck);
    if g != step.g {
      Frame(s, step);
      assert At(s, g, LostCheck);
    }
  }

  lemma {:induction false} LossHasCause(s: State, steps: seq<Step>)
    requires IsRun(s, steps) && LossFound(s, steps)
    ensures CheckDue(s) || CauseIn(steps)
    decreases |steps|
  {
    CauseInTail(steps);
    if steps[0].LoseCheck? && s.connected {
      assert At(s, steps[0].g, LostCheck);
    } else {
      LossHasCause(Apply(s, steps[0]), steps[1..]);
      if !Cause(steps[0]) && CheckDue(Apply(s, steps[0])) {
        CheckDueBefore(s, steps[0]);
      }
    }
  }

  /** In every run the lost handler fires, or is due, only after the transport has ended or a
      keepalive has failed: as long as all keepalives are answered it does not. */
  lemma HandlerNeedsCause(steps: seq<Step>)
    requires IsRun(Init(), steps) && HandlerDue(Final(Init(), steps))
    ensures CauseIn(steps)
  {
    DueRun(Init(), steps);
    LossHasCause(Init(), steps);
  }

  /** A cause leaves somebody on the way to the check until the connection is connected no more. */
  lemma CauseLeavesCheck(s: State, step: Step)
    requires Enabled(s, step)
    ensures Cause(step) ==> CheckDue(Apply(s, step))
    ensures CheckDue(s) && Apply(s, step).connected ==> CheckDue(Apply(s, step))
    ensures Apply(s, step).connected ==> s.connected
  {
    if Cause(step) {
      assert At(Apply(s, step), step.g, LostCheck);
    } else if CheckDue(s) && Apply(s, step).connected {
      var g :| At(s, g, LostCheck);
      if g != step.g { StaysAt(s, step, g, LostCheck); }
    }
  }

  lemma {:induction false} CauseRun(s: State, steps: seq<Step>)
    requires IsRun(s, steps) && Final(s, steps).connected
    ensures s.connected && (CheckDue(s) || CauseIn(steps) ==> CheckDue(Final(s, steps)))
    decreases |steps|
  {
    if steps != [] {
      CauseInTail(steps);
      CauseLeavesCheck(s, steps[0]);
      CauseRun(Apply(s, steps[0]), steps[1..]);
    }
  }

  /** The step makes the connection disconnected. */
  lemma {:induction false} WhyDisconnected(s: State, steps: seq<Step>)
    requires IsRun(s, steps) && s.connected && !Final(s, steps).connected
    ensures LossFound(s, steps) || DisconnectFound(s, steps) || exists g :: At(s, g, DiscClear)
    decreases |steps|
  {
    var next := Apply(s, steps[0]);
    if !next.connected {
      assert steps[0].DisconnectClear? ==> At(s, steps[0].g, DiscClear);
    } else {
      WhyDisconnected(next, steps[1..]);
      if g :| At(next, g, DiscClear) {
        if g != steps[0].g {
          Frame(s, steps[0]);
          assert At(s, g, DiscClear);
        }
      }
    }
  }

  /** Only the monitor is left, waiting for the transport. */
  predicate OnlyMonitors(s: State) {
    forall g :: g in s.threads ==> s.threads[g].MonitorNew? || s.threads[g].MonitorWait?
  }

  predicate Up(s: State) { s.connected && s.mapped && s.client && s.closes == 0 && s.lost + s.disconnects == 0 }

  predicate Down(s: State) { !s.connected && !s.mapped && !s.client && s.closes == 1 && s.lost + s.disconnects >= 1 }

  lemma UpOrDown(s: State)
    requires Inv(s) && OnlyMonitors(s)
    ensures Up(s) || Down(s)
  {
    assert forall g :: g in s.threads ==> !Disconnecting(s.threads[g]) && s.threads[g] != LostNotify;
  }

  /** Over every run, once nobody but the monitor is left: the connection is untouched exactly if
      the transport has not ended, every keepalive was answered and nobody disconnected it. Else it
      is all torn down and somebody was told, even if the monitor still waits. */
  lemma TornDownExactly(steps: seq<Step>)
    requires IsRun(Init(), steps) && OnlyMonitors(Final(Init(), steps))
    ensures var s := Final(Init(), steps);
            if CauseIn(steps) || DisconnectFound(Init(), steps) then Down(s) else Up(s)
  {
    var s := Final(Init(), steps);
    InitInv();
    InvRun(Init(), steps);
    UpOrDown(s);
    DueRun(Init(), steps);
    if Up(s) {
      CauseRun(Init(), steps);
      assert !CheckDue(s);
    } else {
      WhyDisconnected(Init(), steps);
      if LossFound(Init(), steps) { LossHasCause(Init(), steps); }
    }
  }

  /** A keepalive is sent exactly if the connection is connected, in every reachable state. */
  lemma ProbeIsSent(steps: seq<Step>, g: nat)
    requires IsRun(Init(), steps) && g !in Final(Init(), steps).threads
    ensures var s := Final(Init(), steps);
            At(Apply(s, ProbeStart(g)), g, Probing) <==> s.connected
  {
    InitInv();
    InvRun(Init(), steps);
  }

  /** The step takes the client out, if it is still there. */
  predicate TakesClient(step: Step) { step.DisconnectClear? || step.LoseClose? }

  /** The monitor reads the client after somebody has taken it out. */
  predicate ReadsNil(client: bool, steps: seq<Step>) {
    steps != [] && ((steps[0].MonitorRead? && !client) || ReadsNil(client && !TakesClient(steps[0]), steps[1..]))
  }

  lemma {:induction false} CrashRun(s: State, steps: seq<Step>)
    requires IsRun(s, steps)
    ensures Final(s, steps).crashed <==> s.crashed || ReadsNil(s.client, steps)
    decreases |steps|
  {
    if steps != [] {
      CrashRun(Apply(s, steps[0]), steps[1..]);
    }
  }

  lemma {:induction false} ReadsNilIs(client: bool, steps: seq<Step>)
    ensures ReadsNil(client, steps) <==>
            exists j :: 0 <= j < |steps| && steps[j].MonitorRead? &&
                        (!client || exists i :: 0 <= i < j && TakesClient(steps[i]))
  {
    if steps != [] {
      var rest, left := steps[1..], client && !TakesClient(steps[0]);
      ReadsNilIs(left, rest);
      if j :| 0 <= j < |steps| && steps[j].MonitorRead? &&
              (!client || exists i :: 0 <= i < j && TakesClient(steps[i])) {
        if j > 0 {
          var k := j - 1;
          assert rest[k].MonitorRead?;
          if left {
            var i :| 0 <= i < j && TakesClient(steps[i]);
            assert TakesClient(rest[i - 1]);
          }
        }
      }
      if k :| 0 <= k < |rest| && rest[k].MonitorRead? && (!left || exists i :: 0 <= i < k && TakesClient(rest[i])) {
        var j := k + 1;
        assert steps[j].MonitorRead?;
        if client {
          if TakesClient(steps[0]) {
          } else {
            var i :| 0 <= i < k && TakesClient(rest[i]);
            assert TakesClient(steps[i + 1]);
          }
        }
      }
    }
  }

  /** Over every run: the monitor meets a nil client exactly if its first read comes after a
      Disconnect or another loss has taken the client out. */
  lemma MonitorCrashesExactly(steps: seq<Step>)
    requires IsRun(Init(), steps)
    ensures Final(Init(), steps).crashed <==>
            exists i, j :: 0 <= i < j < |steps| && TakesClient(steps[i]) && steps[j].MonitorRead?
  {
    CrashRun(Init(), steps);
    ReadsNilIs(true, steps);
  }

  /** A Disconnect that overtakes the monitor's first read makes it happen. */
  lemma DisconnectMayOvertakeMonitor() returns (steps: seq<Step>)
    ensures IsRun(Init(), steps) && Final(Init(), steps).crashed
  {
    steps := Extend(Init(), [], DisconnectTake(1));
    steps := Extend(Init(), steps, DisconnectClear(1));
    steps := Extend(Init(), steps, MonitorRead(0));
  }

  // ----- the objects -----

  /** One managed connection: `connected` and `client` are its own fields, the rest records what
      happened to it and which goroutines are busy with it. */
  class ManagedConnection {
    const id: string
    var connected: bool
    var client: bool
    var closes: nat
    var lost: nat
    var disconnects: nat
    var crashed: bool
    var threads: map<nat, Pc>

    constructor (id: string)
      ensures this.id == id
      ensures connected && client && closes == 0 && lost == 0 && disconnects == 0 && !crashed
      ensures threads == map[0 := MonitorNew]
    {
      this.id := id;
      connected, client, closes, lost, disconnects, crashed := true, true, 0, 0, 0, false;
      threads := map[0 := MonitorNew];
    }
  }

  class Manager {
    var connections: map<string, ManagedConnection>

    ghost predicate Valid()
      reads this
    {
      forall id :: id in connections ==> connections[id].id == id
    }

    ghost function View(c: ManagedConnection): State
      reads this, c
    {
      State(c.id in connections && connections[c.id] == c, c.connected, c.client,
            c.closes, c.lost, c.disconnects, c.crashed, c.threads)
    }

    constructor ()
      ensures Valid() && connections == map[]
    {
      connections := map[];
    }

    /** `Connect` from a dialled client on; the identifier is fresh. */
    method Connect(id: string) returns (c: ManagedConnection)
      requires Valid() && id !in connections
      modifies this
      ensures Valid() && fresh(c) && c.id == id
      ensures connections == old(connections)[id := c]
      ensures View(c) == Init()
    {
      c := new ManagedConnection(id);
      connections := connections[id := c];
    }

    /** First lock region of `Disconnect`. */
    method DisconnectTakeRegion(id: string, g: nat) returns (ok: bool)
      requires Valid()
      requires id in connections ==> g !in connections[id].threads
      modifies this, if id in connections then {connections[id]} else {}
      ensures Valid() && connections == old(connections) - {id}
      ensures ok <==> id in old(connections)
      ensures ok ==> var c := old(connections)[id]; View(c) == Apply(old(View(c)), DisconnectTake(g))
    {
      ok := id in connections;
      if ok {
        var c := connections[id];
        connections := connections - {id};
        c.threads := c.threads[g := DiscClear];
      }
    }

    method DisconnectClearRegion(c: ManagedConnection, g: nat)
      requires Enabled(View(c), DisconnectClear(g))
      modifies c
      ensures View(c) == Apply(old(View(c)), DisconnectClear(g))
    {
      c.connected := false;
      var client := c.client;
      c.client := false;
      c.threads := c.threads[g := DiscClose(client)];
    }

    method DisconnectCloseCall(c: ManagedConnection, g: nat)
      requires Enabled(View(c), DisconnectClose(g))
      modifies c
      ensures View(c) == Apply(old(View(c)), DisconnectClose(g))
    {
      if c.threads[g].had {
        c.closes := c.closes + 1;
      }
      c.disconnects := c.disconnects + 1;
      c.threads := c.threads - {g};
    }

    method MonitorReadCall(c: ManagedConnection, g: nat)
      requires Enabled(View(c), MonitorRead(g))
      modifies c
      ensures View(c) == Apply(old(View(c)), MonitorRead(g))
    {
      if c.client {
        c.threads := c.threads[g := MonitorWait];
      } else {
        c.crashed := true;
        c.threads := c.threads - {g};
      }
    }

    method KeepAliveRegion(c: ManagedConnection, g: nat)
      requires Enabled(View(c), ProbeStart(g))
      modifies c
      ensures View(c) == Apply(old(View(c)), ProbeStart(g))
    {
      if !c.connected || !c.client {
        return;
      }
      c.threads := c.threads[g := Probing];
    }

    /** First lock region of `handleConnectionLost`. */
    method LostCheckRegion(c: ManagedConnection, g: nat) returns (mine: bool)
      requires Enabled(View(c), LoseCheck(g))
      modifies c
      ensures View(c) == Apply(old(View(c)), LoseCheck(g))
      ensures mine <==> g in c.threads
    {
      mine := c.connected;
      if !mine {
        c.threads := c.threads - {g};
        return;
      }
      c.connected := false;
      c.threads := c.threads[g := LostNotify];
    }

    method LostNotifyCall(c: ManagedConnection, g: nat)
      requires Enabled(View(c), LoseNotify(g))
      modifies c
      ensures View(c) == Apply(old(View(c)), LoseNotify(g))
    {
      c.lost := c.lost + 1;
      c.threads := c.threads[g := LostUnmap];
    }

    /** Second lock region: the entry goes only if it is still this connection's. */
    method LostUnmapRegion(c: ManagedConnection, g: nat)
      requires Valid() && Enabled(View(c), LoseUnmap(g))
      modifies this, c
      ensures Valid()
      ensures View(c) == Apply(old(View(c)), LoseUnmap(g))
      ensures connections == if old(View(c)).mapped then old(connections) - {c.id} else old(connections)
    {
      if c.id in connections && connections[c.id] == c {
        connections := connections - {c.id};
      }
      c.threads := c.threads[g := LostClose];
    }

    method LostCloseRegion(c: ManagedConnection, g: nat)
      requires Enabled(View(c), LoseClose(g))
      modifies c
      ensures View(c) == Apply(old(View(c)), LoseClose(g))
    {
      if c.client {
        c.closes := c.closes + 1;
        c.client := false;
      }
      c.threads := c.threads - {g};
    }

    /** `handleConnectionLost` when no other goroutine interrupts it. */
    method HandleConnectionLost(c: ManagedConnection, g: nat)
      requires Valid() && Enabled(View(c), LoseCheck(g))
      modifies this, c
      ensures Valid() && c.threads == old(c.threads) - {g}
      ensures !old(c.connected) ==>
                && connections == old(connections) && !c.connected && c.client == old(c.client)
                && c.lost == old(c.lost) && c.closes == old(c.closes)
      ensures old(c.connected) ==>
                && connections == (if old(View(c)).mapped then old(connections) - {c.id} else old(connections))
                && !c.connected && !c.client && c.lost == old(c.lost) + 1
                && c.closes == old(c.closes) + if old(c.client) then 1 else 0
    {
      var mine := LostCheckRegion(c, g);
      if !mine {
        return;
      }
      LostNotifyCall(c, g);
      LostUnmapRegion(c, g);
      LostCloseRegion(c, g);
    }

    /** `sendKeepAlive` when no other goroutine interrupts it: an answered probe changes nothing, an
        unanswered one of a connected connection tears it down. */
    method SendKeepAlive(c: ManagedConnection, g: nat, answered: bool)
      requires Valid() && g !in c.threads
      modifies this, c
      ensures Valid() && c.threads == old(c.threads)
      ensures answered || !old(c.connected) || !old(c.client) ==>
                && connections == old(connections) && c.connected == old(c.connected) && c.client == old(c.client)
                && c.lost == old(c.lost) && c.closes == old(c.closes)
      ensures !answered && old(c.connected) && old(c.client) ==>
                && connections == (if old(View(c)).mapped then old(connections) - {c.id} else old(connections))
                && !c.connected && !c.client && c.lost == old(c.lost) + 1 && c.closes == old(c.closes) + 1
    {
      KeepAliveRegion(c, g);
      if g !in c.threads {
        return;
      }
      ProbeReplyCall(c, g, answered);
      if !answered {
        HandleConnectionLost(c, g);
      } else {
        ProbeTouchRegion(c, g);
      }
    }

    method ProbeReplyCall(c: ManagedConnection, g: nat, answered: bool)
      requires Enabled(View(c), ProbeReply(g, answered))
      modifies c
      ensures View(c) == Apply(old(View(c)), ProbeReply(g, answered))
    {
      c.threads := c.threads[g := if answered then ProbeOk else LostCheck];
    }

    /** Last lock region of `sendKeepAlive`; the time of the last activity is not kept here. */
    method ProbeTouchRegion(c: ManagedConnection, g: nat)
      requires Enabled(View(c), ProbeTouch(g))
      modifies c
      ensures View(c) == Apply(old(View(c)), ProbeTouch(g))
    {
      c.threads := c.threads - {g};
    }

    /** `Disconnect` when no other goroutine interrupts it. */
    method Disconnect(id: string, g: nat) returns (ok: bool)
      requires Valid()
      requires id in connections ==> g !in connections[id].threads
      modifies this, if id in connections then {connections[id]} else {}
      ensures Valid() && connections == old(connections) - {id}
      ensures ok <==> id in old(connections)
      ensures ok ==> var c := old(connections)[id];
                     && !c.connected && !c.client && c.disconnects == old(c.disconnects) + 1
                     && c.closes == old(c.closes) + (if old(c.client) then 1 else 0)
                     && c.lost == old(c.lost) && c.threads == old(c.threads)
    {
      if id !in connections {
        ok := DisconnectTakeRegion(id, g);
        return;
      }
      var c := connections[id];
      ok := DisconnectTakeRegion(id, g);
      DisconnectClearRegion(c, g);
      DisconnectCloseCall(c, g);
    }
  }
}
