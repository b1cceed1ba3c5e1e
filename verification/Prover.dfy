/** The proving runtime's gate and drain (proof-builder-rpc/src/prover.rs). A step is one
    piece of a call between two points where another task can run. */
module ProverGate {

  /** Where one call of `run` stands. Its unit is spawned when it reaches `Running`; the
      unit goes on when the caller is dropped. */
  datatype Phase = Waiting | Granted | Passed | Running | Finished | Refused | Abandoned {
    /** The call or its unit owns the gate's permit. */
    predicate Holds() { Granted? || Passed? || Running? }
  }

  datatype Prover = Prover(gated: bool, calls: map<nat, Phase>, permits: nat, closing: bool, gateClosed: bool,
                           trackerClosed: bool)

  datatype Step =
    | Enter(call: nat)
    | Grant(call: nat)
    | GateError(call: nat)
    | Check(call: nat)
    | Spawn(call: nat)
    | Complete(call: nat)
    | DropCaller(call: nat)
    | CancelToken
    | CloseGate
    | CloseTracker
    | ReportDrained

  function Start(gated: bool): Prover { Prover(gated, map[], 1, false, false, false) }

  predicate At(s: Prover, k: nat, p: Phase) { k in s.calls && s.calls[k] == p }

  predicate Idle(s: Prover) { forall k | k in s.calls :: !s.calls[k].Running? }

  predicate Enabled(s: Prover, step: Step) {
    match step
    case Enter(k) => k !in s.calls
    case Grant(k) => At(s, k, Waiting) && !s.gateClosed && s.permits > 0
    case GateError(k) => At(s, k, Waiting) && s.gateClosed
    case Check(k) => At(s, k, Granted)
    case Spawn(k) => At(s, k, Passed)
    case Complete(k) => At(s, k, Running)
    case DropCaller(k) => At(s, k, Waiting) || At(s, k, Running)
    case CancelToken => true
    case CloseGate => s.closing
    case CloseTracker => s.closing
    case ReportDrained => s.trackerClosed && Idle(s)
  }

  function To(s: Prover, k: nat, p: Phase): Prover { s.(calls := s.calls[k := p]) }

  function Released(s: Prover): Prover { if s.gated then s.(permits := s.permits + 1) else s }

  function Next(s: Prover, step: Step): Prover
    requires Enabled(s, step)
  {
    match step
    case Enter(k) => To(s, k, if s.closing then Refused else if s.gated then Waiting else Granted)
    case Grant(k) => To(s, k, Granted).(permits := s.permits - 1)
    case GateError(k) => To(s, k, Refused)
    case Check(k) => if s.closing then Released(To(s, k, Refused)) else To(s, k, Passed)
    case Spawn(k) => To(s, k, Running)
    case Complete(k) => Released(To(s, k, Finished))
    case DropCaller(k) => if At(s, k, Waiting) then To(s, k, Abandoned) else s
    case CancelToken => s.(closing := true)
    case CloseGate => s.(gateClosed := true)
    case CloseTracker => s.(trackerClosed := true)
    case ReportDrained => s
  }

  ghost predicate IsRun(run: seq<Prover>, steps: seq<Step>) {
    && |run| == |steps| + 1
    && forall i | 0 <= i < |steps| :: Enabled(run[i], steps[i]) && run[i + 1] == Next(run[i], steps[i])
  }

  // ------------------------------------------------------------------- the gate

  /** The permit is free or owned by exactly one call. */
  ghost predicate OnePermit(s: Prover) {
    s.gated ==>
      && s.permits <= 1
      && (s.permits == 1 ==> forall k | k in s.calls :: !s.calls[k].Holds())
      && (forall j, k | j in s.calls && k in s.calls && s.calls[j].Holds() && s.calls[k].Holds() :: j == k)
  }

  lemma OnePermitKept(s: Prover, step: Step)
    requires OnePermit(s) && Enabled(s, step)
    ensures OnePermit(Next(s, step))
  {
  }

  /** With the gate on at most one unit runs at any time, dropped callers included. */
  lemma {:induction false} AtMostOneUnitRuns(run: seq<Prover>, steps: seq<Step>, i: nat)
    requires IsRun(run, steps) && run[0] == Start(true) && i < |run|
    ensures run[i].gated && OnePermit(run[i])
    ensures forall j, k | At(run[i], j, Running) && At(run[i], k, Running) :: j == k
  {
    if i > 0 {
      AtMostOneUnitRuns(run, steps, i - 1);
      OnePermitKept(run[i - 1], steps[i - 1]);
      assert run[i - 1 + 1] == Next(run[i - 1], steps[i - 1]);
    }
  }

  // ------------------------------------------------------------------- shutdown

  predicate Begun(s: Prover, k: nat) {
    k in s.calls && (s.calls[k].Passed? || s.calls[k].Running? || s.calls[k].Finished?)
  }

  lemma ClosingStep(s: Prover, step: Step, k: nat)
    requires Enabled(s, step) && s.closing
    ensures Next(s, step).closing
    ensures !Begun(s, k) ==> !Begun(Next(s, step), k)
    ensures k in s.calls && s.calls[k].Finished? ==> At(Next(s, step), k, Finished)
  {
  }

  /** A unit that has not passed its second closing check when shutdown begins never
      starts. */
  lemma {:induction false} NothingStartsAfterClosing(run: seq<Prover>, steps: seq<Step>, i: nat, j: nat, k: nat)
    requires IsRun(run, steps) && i <= j < |run| && run[i].closing && !Begun(run[i], k)
    ensures run[j].closing && !Begun(run[j], k)
    decreases j
  {
    if i < j {
      NothingStartsAfterClosing(run, steps, i, j - 1, k);
      ClosingStep(run[j - 1], steps[j - 1], k);
      assert run[j - 1 + 1] == Next(run[j - 1], steps[j - 1]);
    }
  }

  // ---------------------------------------------------------------------- drain

  lemma SpawnedStep(s: Prover, step: Step, k: nat)
    requires Enabled(s, step) && k in s.calls && (s.calls[k].Running? || s.calls[k].Finished?)
    ensures var t := Next(s, step); k in t.calls && (t.calls[k].Running? || t.calls[k].Finished?)
  {
  }

  lemma {:induction false} SpawnedStays(run: seq<Prover>, steps: seq<Step>, i: nat, j: nat, k: nat)
    requires IsRun(run, steps) && i <= j < |run| && k in run[i].calls
             && (run[i].calls[k].Running? || run[i].calls[k].Finished?)
    ensures k in run[j].calls && (run[j].calls[k].Running? || run[j].calls[k].Finished?)
    decreases j
  {
    if i < j {
      SpawnedStays(run, steps, i, j - 1, k);
      SpawnedStep(run[j - 1], steps[j - 1], k);
      assert run[j - 1 + 1] == Next(run[j - 1], steps[j - 1]);
    }
  }

  /** Drain reports success only after every unit spawned before it has finished. */
  lemma DrainedAfterAll(run: seq<Prover>, steps: seq<Step>, i: nat, j: nat, k: nat)
    requires IsRun(run, steps) && i < j < |steps| && steps[i] == Spawn(k) && steps[j].ReportDrained?
    ensures At(run[j], k, Finished)
  {
    assert run[i + 1] == Next(run[i], steps[i]);
    SpawnedStays(run, steps, i + 1, j, k);
  }

  predicate NoneBetween(s: Prover) { forall k | k in s.calls :: !s.calls[k].Passed? }

  /** The tracker closes after the token, so a report implies closing. */
  lemma {:induction false} TrackerClosesLast(run: seq<Prover>, steps: seq<Step>, gated: bool, i: nat)
    requires IsRun(run, steps) && run[0] == Start(gated) && i < |run|
    ensures run[i].trackerClosed ==> run[i].closing
  {
    if i > 0 {
      TrackerClosesLast(run, steps, gated, i - 1);
      assert run[i - 1 + 1] == Next(run[i - 1], steps[i - 1]);
    }
  }

  lemma IdleStep(s: Prover, step: Step)
    requires Enabled(s, step) && s.closing && Idle(s) && NoneBetween(s)
    ensures var t := Next(s, step); t.closing && Idle(t) && NoneBetween(t)
  {
  }

  lemma {:induction false} StaysIdle(run: seq<Prover>, steps: seq<Step>, i: nat, j: nat)
    requires IsRun(run, steps) && i <= j < |run| && run[i].closing && Idle(run[i]) && NoneBetween(run[i])
    ensures run[j].closing && Idle(run[j]) && NoneBetween(run[j])
    decreases j
  {
    if i < j {
      StaysIdle(run, steps, i, j - 1);
      IdleStep(run[j - 1], steps[j - 1]);
      assert run[j - 1 + 1] == Next(run[j - 1], steps[j - 1]);
    }
  }

  /** After a reported drain no unit ever runs in any continuation, if and only if no call
      stood between its second check and its spawn. */
  lemma DrainIsFinalIff(run: seq<Prover>, steps: seq<Step>, gated: bool)
    requires IsRun(run, steps) && run[0] == Start(gated) && Enabled(run[|steps|], ReportDrained)
    ensures (forall more, rest | IsRun(more, rest) && more[0] == run[|steps|] :: forall j | 0 <= j < |more| ::
             Idle(more[j]))
            <==> NoneBetween(run[|steps|])
  {
    var s := run[|steps|];
    TrackerClosesLast(run, steps, gated, |steps|);
    if NoneBetween(s) {
      forall more, rest, j | IsRun(more, rest) && more[0] == s && 0 <= j < |more| ensures Idle(more[j]) {
        StaysIdle(more, rest, 0, j);
      }
    } else {
      var k :| k in s.calls && s.calls[k].Passed?;
      var more, rest := [s, Next(s, Spawn(k))], [Spawn(k)];
      assert IsRun(more, rest) && !Idle(more[1]) by {
        assert more[1].calls[k].Running?;
      }
    }
  }

  /** Such a drain exists: the caller passes its check, shutdown runs, drain reports, and
      the unit starts afterwards. */
  lemma DrainCanPrecedeASpawn() returns (run: seq<Prover>, steps: seq<Step>)
    ensures IsRun(run, steps) && run[0] == Start(true) && |steps| == 8 && steps[6].ReportDrained? && !Idle(run[8])
  {
    run, steps := [Start(true)], [];
    for n := 0 to 8
      invariant IsRun(run, steps) && run[0] == Start(true) && |steps| == n && Scripted(run[n], n)
      invariant n > 6 ==> steps[6].ReportDrained?
    {
      var s, step := run[n], Script(n);
      run, steps := run + [Next(s, step)], steps + [step];
    }
    assert run[8].calls[0].Running?;
  }

  /** Check passed, then shutdown and a drain report, and only then the spawn. */
  function Script(n: nat): Step
    requires n < 8
  {
    match n
    case 0 => Enter(0)
    case 1 => Grant(0)
    case 2 => Check(0)
    case 3 => CancelToken
    case 4 => CloseGate
    case 5 => CloseTracker
    case 6 => ReportDrained
    case _ => Spawn(0)
  }

  ghost predicate Scripted(s: Prover, n: nat) {
    && s.gated && s.permits == (if n < 2 then 1 else 0) && s.closing == (n > 3) && s.gateClosed == (n > 4)
    && s.trackerClosed == (n > 5)
    && (if n == 0 then s.calls == map[]
        else
          var call := if n == 1 then Waiting else if n == 2 then Granted else if n < 8 then Passed else Running;
          s.calls == map[0 := call])
  }

  // ------------------------------------------------------------------ the object

  /** The shared runtime object; every method is one uninterrupted piece of a call. */
  class ProverRuntime {
    const gated: bool
    var calls: map<nat, Phase>
    var permits: nat
    var closing: bool
    var gateClosed: bool
    var trackerClosed: bool

    function State(): Prover
      reads this
    {
      Prover(gated, calls, permits, closing, gateClosed, trackerClosed)
    }

    constructor (gated: bool)
      ensures State() == Start(gated)
    {
      this.gated, calls, permits, closing, gateClosed, trackerClosed := gated, map[], 1, false, false, false;
    }

    /** `run` up to its first wait: refuse when closing. */
    method EnterCall(k: nat) returns (refused: bool)
      requires Enabled(State(), Enter(k))
      modifies this
      ensures State() == Next(old(State()), Enter(k)) && refused == old(closing)
    {
      refused := closing;
      calls := calls[k := if refused then Refused else if gated then Waiting else Granted];
    }

    /** `run` from the permit on: check again, then spawn the tracked unit. */
    method PassAndSpawn(k: nat) returns (spawned: bool)
      requires Enabled(State(), Check(k))
      modifies this
      ensures spawned == !old(closing)
      ensures var checked := Next(old(State()), Check(k));
              State() == if spawned then Next(checked, Spawn(k)) else checked
    {
      if closing {
        calls := calls[k := Refused];
        if gated { permits := permits + 1; }
        return false;
      }
      calls := calls[k := Running];
      spawned := true;
    }

    method CompleteUnit(k: nat)
      requires Enabled(State(), Complete(k))
      modifies this
      ensures State() == Next(old(State()), Complete(k))
    {
      calls := calls[k := Finished];
      if gated { permits := permits + 1; }
    }

    method BeginShutdown()
      modifies this
      ensures closing && gateClosed && trackerClosed && calls == old(calls) && permits == old(permits)
      ensures State() == Next(Next(Next(old(State()), CancelToken), CloseGate), CloseTracker)
    {
      closing := true;
      gateClosed := true;
      trackerClosed := true;
    }

    /** How many units run. */
    method InFlight() returns (n: nat)
      ensures n == |set k | k in calls && calls[k].Running?|
      ensures n == 0 <==> Idle(State())
    {
      var units := set k | k in calls && calls[k].Running?;
      n := |units|;
      assert n == 0 ==> units == {};
      if n == 0 {
        forall k | k in calls ensures !calls[k].Running? { assert k !in units; }
      }
    }

    /** One look of a waiting drain: success when the tracker is closed and empty. */
    method TryDrain() returns (drained: bool)
      modifies this
      ensures drained <==> Enabled(State(), ReportDrained)
      ensures calls == old(calls) && closing
    {
      BeginShutdown();
      var n := InFlight();
      drained := n == 0;
    }
  }
}
