/** The upload queue's slots: a counting semaphore on a condition variable whose limit can be
    changed at any time. Each lock region is one step; goroutines are identified by number. */
module UploadSlots {
  datatype State = State(
    limit: int,
    active: int,
    sleeping: set<nat>,
    woken: set<nat>,
    holding: set<nat>)

  /** `Signal` wakes some sleeper when there is one; the step says which. */
  datatype Step =
    | Acquire(g: nat)
    | Relock(g: nat)
    | Release(g: nat, wake: nat)
    | SetMax(n: int)

  function Clamp(n: int): int { if n < 1 || n > 10 then 3 else n }

  function Init(n: int): State { State(Clamp(n), 0, {}, {}, {}) }

  function Present(s: State): set<nat> { s.sleeping + s.woken + s.holding }

  predicate Enabled(s: State, step: Step) {
    match step
    case Acquire(g) => g !in Present(s)
    case Relock(g) => g in s.woken
    case Release(g, wake) => g in s.holding && (s.sleeping != {} ==> wake in s.sleeping)
    case SetMax(_) => true
  }

  function Apply(s: State, step: Step): State
    requires Enabled(s, step)
  {
    match step
    case Acquire(g) =>
      if s.active >= s.limit then s.(sleeping := s.sleeping + {g})
      else s.(active := s.active + 1, holding := s.holding + {g})
    case Relock(g) =>
      if s.active >= s.limit then s.(woken := s.woken - {g}, sleeping := s.sleeping + {g})
      else s.(woken := s.woken - {g}, active := s.active + 1, holding := s.holding + {g})
    case Release(g, wake) =>
      var t := s.(active := s.active - 1, holding := s.holding - {g});
      if s.sleeping == {} then t else t.(sleeping := s.sleeping - {wake}, woken := s.woken + {wake})
    case SetMax(n) =>
      s.(limit := Clamp(n), woken := s.woken + s.sleeping, sleeping := {})
  }

  predicate IsRun(s: State, steps: seq<Step>)
    decreases |steps|
  {
    steps == [] || (Enabled(s, steps[0]) && IsRun(Apply(s, steps[0]), steps[1..]))
  }

  function Final(s: State, steps: seq<Step>): State
    requires IsRun(s, steps)
    decreases |steps|
  {
    if steps == [] then s else Final(Apply(s, steps[0]), steps[1..])
  }

  /** Slots and holders agree, within the bounds; and while anyone sleeps, the slots taken and
      the waiters already woken together fill the limit. */
  predicate Inv(s: State) {
    && 1 <= s.limit <= 10
    && s.active == |s.holding| && s.active <= 10
    && s.sleeping !! s.woken !! s.holding
    && (s.sleeping != {} ==> s.active + |s.woken| >= s.limit)
  }

  lemma AcquireInv(s: State, g: nat)
    requires Inv(s) && Enabled(s, Acquire(g))
    ensures Inv(Apply(s, Acquire(g)))
  {
    assert |s.holding + {g}| == |s.holding| + 1;
  }

  lemma RelockInv(s: State, g: nat)
    requires Inv(s) && Enabled(s, Relock(g))
    ensures Inv(Apply(s, Relock(g)))
  {
    assert |s.woken - {g}| == |s.woken| - 1;
    assert |s.holding + {g}| == |s.holding| + 1;
  }

  lemma ReleaseInv(s: State, g: nat, wake: nat)
    requires Inv(s) && Enabled(s, Release(g, wake))
    ensures Inv(Apply(s, Release(g, wake)))
  {
    assert |s.holding - {g}| == |s.holding| - 1;
    if s.sleeping != {} {
      assert |s.woken + {wake}| == |s.woken| + 1;
    }
  }

  lemma InvStep(s: State, step: Step)
    requires Inv(s) && Enabled(s, step)
    ensures Inv(Apply(s, step))
  {
    match step
    case Acquire(g) => AcquireInv(s, g);
    case Relock(g) => RelockInv(s, g);
    case Release(g, wake) => ReleaseInv(s, g, wake);
    case SetMax(n) =>
  }

  lemma {:induction false} InvRun(s: State, steps: seq<Step>)
    requires Inv(s) && IsRun(s, steps)
    ensures Inv(Final(s, steps))
    decreases |steps|
  {
    if steps != [] {
      InvStep(s, steps[0]);
      InvRun(Apply(s, steps[0]), steps[1..]);
    }
  }

  /** No lost wakeup, through any resizing: in every reachable state `active` counts the slot
      holders and is at most 10, and a sleeper never waits while slots held plus waiters woken
      fall short of the current limit; so never while nobody holds a slot and nobody was woken. */
  lemma NoLostWakeup(n: int, steps: seq<Step>)
    requires IsRun(Init(n), steps)
    ensures var s := Final(Init(n), steps);
            && s.active == |s.holding| <= 10
            && (s.sleeping != {} ==> |s.holding| + |s.woken| >= s.limit)
            && (s.sleeping != {} ==> s.holding + s.woken != {})
  {
    InvRun(Init(n), steps);
    var s := Final(Init(n), steps);
    if s.holding + s.woken == {} {
      assert s.holding == {} && s.woken == {};
    }
  }

  /** A slot is only ever granted below the limit in force at that moment. */
  lemma GrantedBelowLimit(s: State, step: Step, g: nat)
    requires Inv(s) && Enabled(s, step)
    requires g !in s.holding && g in Apply(s, step).holding
    ensures |s.holding| < s.limit && |Apply(s, step).holding| <= s.limit
  {
  }

  predicate Leaves(step: Step, g: nat) { step.Release? && step.g == g }

  predicate NotReleased(steps: seq<Step>, g: nat) { forall step :: step in steps ==> !Leaves(step, g) }

  lemma PresentAfterRelease(s: State, h: nat, wake: nat, g: nat)
    requires s.sleeping !! s.woken !! s.holding && Enabled(s, Release(h, wake))
    ensures g in Present(Apply(s, Release(h, wake))) <==> g in Present(s) && g != h
  {
  }

  lemma PresentAfterOther(s: State, step: Step, g: nat)
    requires Enabled(s, step) && !step.Release?
    ensures g in Present(Apply(s, step)) <==> step == Acquire(g) || g in Present(s)
  {
  }

  lemma PresentAfter(s: State, step: Step, g: nat)
    requires Inv(s) && Enabled(s, step)
    ensures g in Present(Apply(s, step)) <==> step == Acquire(g) || (g in Present(s) && !Leaves(step, g))
  {
    if step.Release? {
      PresentAfterRelease(s, step.g, step.wake, g);
    } else {
      PresentAfterOther(s, step, g);
    }
  }

  /** Nobody is forgotten: an upload that asks for a slot is waiting for it or holding it until it
      gives it back, and nobody else is. */
  lemma {:induction false} PresentExactly(s: State, steps: seq<Step>, g: nat)
    requires Inv(s) && IsRun(s, steps)
    ensures g in Present(Final(s, steps)) <==>
            || (g in Present(s) && NotReleased(steps, g))
            || (exists i :: 0 <= i < |steps| && steps[i] == Acquire(g) && NotReleased(steps[i + 1..], g))
    decreases |steps|
  {
    if steps != [] {
      var next, rest := Apply(s, steps[0]), steps[1..];
      InvStep(s, steps[0]);
      PresentAfter(s, steps[0], g);
      PresentExactly(next, rest, g);
      assert steps == [steps[0]] + rest;
      if i :| 0 <= i < |rest| && rest[i] == Acquire(g) && NotReleased(rest[i + 1..], g) {
        assert steps[i + 1] == Acquire(g) && steps[i + 1 + 1..] == rest[i + 1..];
      }
      if i :| 0 <= i < |steps| && steps[i] == Acquire(g) && NotReleased(steps[i + 1..], g) {
        assert i > 0 ==> rest[i - 1] == Acquire(g) && rest[i - 1 + 1..] == steps[i + 1..];
      }
    }
  }

  /** A limit from 1 to 10 is taken as it is, any other becomes 3, at the start and later. */
  lemma LimitTaken(s: State, n: int)
    ensures Init(n).limit == Apply(s, SetMax(n)).limit
    ensures 1 <= n <= 10 ==> Apply(s, SetMax(n)).limit == n
    ensures !(1 <= n <= 10) ==> Apply(s, SetMax(n)).limit == 3
  {
  }

  // ----- draining -----

  /** Steps that neither bring in new uploads nor resize. */
  predicate Draining(step: Step) { step.Relock? || step.Release? }

  function Rank(s: State): nat { 2 * (|s.sleeping| + |s.woken| + |s.holding|) + |s.woken| }

  lemma DrainingStepDescends(s: State, step: Step)
    requires Inv(s) && Enabled(s, step) && Draining(step)
    ensures Rank(Apply(s, step)) < Rank(s)
  {
    if step.Release? {
      assert |s.holding - {step.g}| == |s.holding| - 1;
      assert s.sleeping != {} ==> |s.woken + {step.wake}| == |s.woken| + 1;
      assert s.sleeping != {} ==> |s.sleeping - {step.wake}| == |s.sleeping| - 1;
    } else {
      assert |s.woken - {step.g}| == |s.woken| - 1;
    }
  }

  /** While any upload is present some draining step is enabled: there is no deadlock. */
  lemma SomeoneCanMove(s: State)
    requires Inv(s) && Present(s) != {}
    ensures exists step :: Draining(step) && Enabled(s, step)
  {
    if s.woken != {} {
      var g :| g in s.woken;
      assert Enabled(s, Relock(g));
    } else {
      assert |s.woken| == 0;
      var g :| g in s.holding;
      var wake: nat :| s.sleeping != {} ==> wake in s.sleeping;
      assert Enabled(s, Release(g, wake));
    }
  }

  /** Once no more uploads arrive, whatever the schedule, after at most `Rank` steps of the
      uploads already present every one of them has had its slot and left. */
  lemma {:induction false} EveryUploadDrains(s: State, steps: seq<Step>)
    requires Inv(s) && IsRun(s, steps) && forall step :: step in steps ==> Draining(step)
    ensures |steps| <= Rank(s)
    ensures (forall step :: Draining(step) ==> !Enabled(Final(s, steps), step)) <==> Present(Final(s, steps)) == {}
    decreases |steps|
  {
    if steps == [] {
      if Present(s) != {} { SomeoneCanMove(s); }
    } else {
      InvStep(s, steps[0]);
      DrainingStepDescends(s, steps[0]);
      EveryUploadDrains(Apply(s, steps[0]), steps[1..]);
    }
  }

  /** The queue object: `MaxConcurrent` and `active` are its fields, the three sets are the
      goroutines in `acquire` and between `acquire` and `release`. */
  class UploadQueue {
    var maxConcurrent: int
    var active: int
    var sleeping: set<nat>
    var woken: set<nat>
    var holding: set<nat>

    ghost function View(): State
      reads this
    {
      State(maxConcurrent, active, sleeping, woken, holding)
    }

    constructor (max: int)
      ensures View() == Init(max)
    {
      maxConcurrent := if max < 1 || max > 10 then 3 else max;
      active, sleeping, woken, holding := 0, {}, {}, {};
    }

    /** Broadcast wakes every sleeper. */
    method SetMaxConcurrent(n: int)
      modifies this
      ensures View() == Apply(old(View()), SetMax(n))
      ensures maxConcurrent == if 1 <= n <= 10 then n else 3
      ensures sleeping == {} && woken == old(woken + sleeping) && active == old(active) && holding == old(holding)
    {
      maxConcurrent := if n < 1 || n > 10 then 3 else n;
      woken, sleeping := woken + sleeping, {};
    }

    /** `acquire` from its first lock to a slot or to its first wait. */
    method AcquireRegion(g: nat) returns (granted: bool)
      requires Enabled(View(), Acquire(g))
      modifies this
      ensures View() == Apply(old(View()), Acquire(g))
      ensures granted <==> g in holding
    {
      granted := active < maxConcurrent;
      if granted {
        active, holding := active + 1, holding + {g};
      } else {
        sleeping := sleeping + {g};
      }
    }

    /** `acquire` from a wakeup to a slot or to its next wait. */
    method RelockRegion(g: nat) returns (granted: bool)
      requires Inv(View()) && Enabled(View(), Relock(g))
      modifies this
      ensures View() == Apply(old(View()), Relock(g))
      ensures granted <==> g in holding
    {
      woken := woken - {g};
      granted := active < maxConcurrent;
      if granted {
        active, holding := active + 1, holding + {g};
      } else {
        sleeping := sleeping + {g};
      }
    }

    method ReleaseRegion(g: nat, wake: nat)
      requires Enabled(View(), Release(g, wake))
      modifies this
      ensures View() == Apply(old(View()), Release(g, wake))
    {
      active, holding := active - 1, holding - {g};
      if sleeping != {} {
        sleeping, woken := sleeping - {wake}, woken + {wake};
      }
    }
  }
}
