/** Builds parked behind a sibling: on which slot they wait, over whole runs. */
module GraphParks {
  import opened Common
  import opened EngineTypes
  import opened EngineTables
  import opened EngineMachine
  import opened EngineDelivery
  import opened GraphModel
  import opened GraphReplies
  import opened GraphRuns

  /** Entry `e` parked a build, behind a sibling that will take slot `slot`. */
  ghost predicate BuildPark(e: Entry<GraphTables>, operator: string, slot: nat) {
    && e.Committed? && e.reply.Decided? && e.reply.verdict.Park?
    && e.input.row.aggregate.kind == GRAPH_KIND && KindOf(e.input.row.kind).BuildReady?
    && e.input.row.aggregate.id in e.input.business.sessions
    && operator == e.input.business.sessions[e.input.row.aggregate.id].operator
    && slot == NextSlot(e.input.business, operator)
  }

  function MirroredName(aggregates: map<AggregateRef, AggregateRow>, g: string): string {
    if GraphRef(g) in aggregates then aggregates[GraphRef(g)].status else ""
  }

  /** The slot's graph is stored but its aggregate has not mirrored it yet. */
  ghost predicate StoredUnmirrored(b: GraphTables, aggregates: map<AggregateRef, AggregateRow>, operator: string,
                                   slot: nat) {
    exists g | g in b.graphs ::
      b.graphs[g].operator == operator && b.graphs[g].slot == slot && MirroredName(aggregates, g) == ""
  }

  ghost predicate ChangedSince(log: seq<Entry<GraphTables>>, p: int, ref: string) {
    exists q | p < q < |log| :: q >= 0 && Changes(log[q], ref)
  }

  /** Every park of a build is on the next slot, on a slot not mirrored yet, or over. */
  ghost predicate ParksAreCurrent(s: GraphSystem) {
    forall p, operator, slot | 0 <= p < |s.log| && BuildPark(s.log[p], operator, slot) ::
      ParkIsCurrent(s.business, s.db.aggregates, s.log, p, operator, slot)
  }

  /** A graph is mirrored only once it is stored. */
  ghost predicate MirrorsStored(b: GraphTables, aggregates: map<AggregateRef, AggregateRow>) {
    forall g | GraphRef(g) in aggregates && aggregates[GraphRef(g)].status != "" :: g in b.graphs
  }

  /** No new definition lies beyond its operator's next slot; a missing lower one may come
      later. */
  ghost predicate SkipsNoSlot(b: GraphTables, after: GraphTables) {
    forall g | g in after.graphs && g !in b.graphs :: after.graphs[g].slot <= NextSlot(b, after.graphs[g].operator)
  }

  lemma SameNextSlot(b: GraphTables, after: GraphTables, operator: string)
    requires Grows(b, after)
    requires forall g | g in after.graphs && after.graphs[g].operator == operator && g !in b.graphs ::
               after.graphs[g].slot < NextSlot(b, operator)
    ensures NextSlot(after, operator) == NextSlot(b, operator)
  {
    var next := NextSlot(b, operator);
    forall k | k in SlotsOf(after, operator) ensures k < next {
      var g :| g in after.graphs && after.graphs[g].operator == operator && after.graphs[g].slot == k;
      assert g in b.graphs ==> SameDefinition(b.graphs[g], after.graphs[g]) && k in SlotsOf(b, operator);
    }
    if next > 0 {
      var g :| g in b.graphs && b.graphs[g].operator == operator && b.graphs[g].slot == next - 1;
      assert SameDefinition(b.graphs[g], after.graphs[g]);
    }
    OnePastIs(SlotsOf(after, operator), next);
  }

  /** When the next slot moves on, its graph has just been stored and is not mirrored. */
  lemma NextSlotMoves(b: GraphTables, after: GraphTables, before: map<AggregateRef, AggregateRow>,
                      aggregates: map<AggregateRef, AggregateRow>, operator: string)
    requires Grows(b, after) && SkipsNoSlot(b, after) && MirrorsStored(b, before)
    requires forall g | g in after.graphs && g !in b.graphs :: MirroredName(aggregates, g) == MirroredName(before, g)
    ensures || NextSlot(after, operator) == NextSlot(b, operator)
            || StoredUnmirrored(after, aggregates, operator, NextSlot(b, operator))
  {
    if g :| g in after.graphs && g !in b.graphs && after.graphs[g].operator == operator
            && after.graphs[g].slot == NextSlot(b, operator) {
      assert MirroredName(aggregates, g) == "";
    } else {
      SameNextSlot(b, after, operator);
    }
  }

  /** A graph stored in this step has the mirror it had before. */
  lemma NewGraphsUnmirrored(c: Config<GraphTables>, s: GraphSystem, step: GraphStep, g: string)
    requires TameEngine(c) && Enabled(c, s, step)
    requires g in Next(c, s, step).business.graphs && g !in s.business.graphs
    ensures MirroredName(Next(c, s, step).db.aggregates, g) == MirroredName(s.db.aggregates, g)
  {
    StepAggregates(c, s, step);
    StepTables(c, s, step);
    GraphCommitsStoreNothing(c, s, step);
  }

  lemma GraphCommitsStoreNothing(c: Config<GraphTables>, s: GraphSystem, step: GraphStep)
    requires TameEngine(c) && Enabled(c, s, step)
    ensures CommitsApply(c, s, step) && StepInput(s, step).row.aggregate.kind == GRAPH_KIND ==>
              Next(c, s, step).business.graphs.Keys == s.business.graphs.Keys
  {
    StepTables(c, s, step);
    if CommitsApply(c, s, step) && StepInput(s, step).row.aggregate.kind == GRAPH_KIND {
      assert GraphReply(StepInput(s, step), c.handler(StepInput(s, step)));
    }
  }

  lemma MirrorsStoredKept(c: Config<GraphTables>, s: GraphSystem, step: GraphStep)
    requires TameEngine(c) && Enabled(c, s, step) && MirrorsStored(s.business, s.db.aggregates)
    ensures MirrorsStored(Next(c, s, step).business, Next(c, s, step).db.aggregates)
  {
    var t := Next(c, s, step);
    StepAggregates(c, s, step);
    StepTables(c, s, step);
    forall g | GraphRef(g) in t.db.aggregates && t.db.aggregates[GraphRef(g)].status != ""
        ensures g in t.business.graphs {
      if CommitsApply(c, s, step) && StepInput(s, step).row.aggregate == GraphRef(g) {
        var input := StepInput(s, step);
        assert GraphReply(input, c.handler(input));
      } else {
        assert GraphRef(g) in s.db.aggregates && s.db.aggregates[GraphRef(g)] == t.db.aggregates[GraphRef(g)];
      }
    }
  }

  /** Mirroring a stored graph wakes its slot. */
  lemma MirroringWakes(c: Config<GraphTables>, s: GraphSystem, step: GraphStep, g: string)
    requires TameEngine(c) && Enabled(c, s, step) && g in s.business.graphs
    requires MirroredName(s.db.aggregates, g) == "" && MirroredName(Next(c, s, step).db.aggregates, g) != ""
    ensures |NewEntries(c, s, step)| == 1
    ensures Changes(NewEntries(c, s, step)[0], SlotRef(s.business.graphs[g].operator, s.business.graphs[g].slot))
  {
    StepAggregates(c, s, step);
    StepTables(c, s, step);
    if CommitsApply(c, s, step) {
      var input := StepInput(s, step);
      assert input.row.aggregate == GraphRef(g);
      assert GraphReply(input, c.handler(input));
    }
  }

  /** A new park is on the next slot. */
  lemma NewPark(c: Config<GraphTables>, s: GraphSystem, step: GraphStep, i: nat, operator: string, slot: nat)
    requires TameEngine(c) && Enabled(c, s, step)
    requires i < |NewEntries(c, s, step)| && BuildPark(NewEntries(c, s, step)[i], operator, slot)
    ensures slot == NextSlot(Next(c, s, step).business, operator)
  {
    if step.Work? {
      var input := StepInput(s, step);
      StepTables(c, s, step);
      assert GraphReply(input, c.handler(input));
      assert SlotsOf(Next(c, s, step).business, operator) == SlotsOf(s.business, operator);
    } else {
      OtherEntries(c, s, step);
      assert false;
    }
  }

  ghost predicate ParkIsCurrent(b: GraphTables, aggregates: map<AggregateRef, AggregateRow>,
                                log: seq<Entry<GraphTables>>, p: int, operator: string, slot: nat)
  {
    || slot == NextSlot(b, operator)
    || StoredUnmirrored(b, aggregates, operator, slot)
    || ChangedSince(log, p, SlotRef(operator, slot))
  }

  lemma OldPark(c: Config<GraphTables>, s: GraphSystem, step: GraphStep, p: nat, operator: string, slot: nat)
    requires TameEngine(c) && Enabled(c, s, step) && p < |s.log|
    requires MirrorsStored(s.business, s.db.aggregates) && SkipsNoSlot(s.business, Next(c, s, step).business)
    requires ParkIsCurrent(s.business, s.db.aggregates, s.log, p, operator, slot)
    ensures var t := Next(c, s, step); ParkIsCurrent(t.business, t.db.aggregates, t.log, p, operator, slot)
  {
    var t := Next(c, s, step);
    LogGrows(c, s, step);
    StepTables(c, s, step);
    if ChangedSince(s.log, p, SlotRef(operator, slot)) {
      var q :| p < q < |s.log| && Changes(s.log[q], SlotRef(operator, slot));
      assert t.log[q] == s.log[q];
    } else if slot == NextSlot(s.business, operator) {
      forall g | g in t.business.graphs && g !in s.business.graphs
        ensures MirroredName(t.db.aggregates, g) == MirroredName(s.db.aggregates, g)
      {
        NewGraphsUnmirrored(c, s, step, g);
      }
      NextSlotMoves(s.business, t.business, s.db.aggregates, t.db.aggregates, operator);
    } else {
      StoredPark(c, s, step, p, operator, slot);
    }
  }

  lemma StoredPark(c: Config<GraphTables>, s: GraphSystem, step: GraphStep, p: nat, operator: string, slot: nat)
    requires TameEngine(c) && Enabled(c, s, step) && p < |s.log|
    requires StoredUnmirrored(s.business, s.db.aggregates, operator, slot)
    ensures var t := Next(c, s, step);
            StoredUnmirrored(t.business, t.db.aggregates, operator, slot)
              || ChangedSince(t.log, p, SlotRef(operator, slot))
  {
    var t := Next(c, s, step);
    LogGrows(c, s, step);
    StepTables(c, s, step);
    var g :| g in s.business.graphs && s.business.graphs[g].operator == operator && s.business.graphs[g].slot == slot
             && MirroredName(s.db.aggregates, g) == "";
    assert SameDefinition(s.business.graphs[g], t.business.graphs[g]);
    if MirroredName(t.db.aggregates, g) != "" {
      MirroringWakes(c, s, step, g);
      assert t.log[|s.log|] == NewEntries(c, s, step)[0];
    }
  }

  lemma ParksKept(c: Config<GraphTables>, s: GraphSystem, step: GraphStep)
    requires TameEngine(c) && Enabled(c, s, step) && ParksAreCurrent(s)
    requires MirrorsStored(s.business, s.db.aggregates) && SkipsNoSlot(s.business, Next(c, s, step).business)
    ensures ParksAreCurrent(Next(c, s, step))
  {
    var t, es := Next(c, s, step), NewEntries(c, s, step);
    LogGrows(c, s, step);
    forall p, operator, slot | 0 <= p < |s.log| && BuildPark(s.log[p], operator, slot)
      ensures ParkIsCurrent(t.business, t.db.aggregates, t.log, p, operator, slot)
    {
      OldPark(c, s, step, p, operator, slot);
    }
    forall i, operator, slot | 0 <= i < |es| && BuildPark(es[i], operator, slot)
      ensures ParkIsCurrent(t.business, t.db.aggregates, t.log, |s.log| + i, operator, slot)
    {
      NewPark(c, s, step, i, operator, slot);
    }
    ParksJoin(t, s.log, es);
  }

  lemma ParksJoin(t: GraphSystem, log: seq<Entry<GraphTables>>, es: seq<Entry<GraphTables>>)
    requires t.log == log + es
    requires forall p, operator, slot | 0 <= p < |log| && BuildPark(log[p], operator, slot) ::
               ParkIsCurrent(t.business, t.db.aggregates, t.log, p, operator, slot)
    requires forall i, operator, slot | 0 <= i < |es| && BuildPark(es[i], operator, slot) ::
               ParkIsCurrent(t.business, t.db.aggregates, t.log, |log| + i, operator, slot)
    ensures ParksAreCurrent(t)
  {
    forall p, operator, slot | 0 <= p < |t.log| && BuildPark(t.log[p], operator, slot)
      ensures ParkIsCurrent(t.business, t.db.aggregates, t.log, p, operator, slot)
    {
      if p < |log| {
        assert t.log[p] == log[p];
      } else {
        var i := p - |log|;
        assert t.log[p] == es[i] && p == |log| + i;
      }
    }
  }

  /** Over a whole run no definition skips a slot. */
  ghost predicate NoSlotSkipped(run: seq<GraphSystem>) {
    forall i | 0 <= i < |run| - 1 :: SkipsNoSlot(run[i].business, run[i + 1].business)
  }

  lemma ParksNext(c: Config<GraphTables>, s: GraphSystem, step: GraphStep, t: GraphSystem)
    requires TameEngine(c) && Enabled(c, s, step) && t == Next(c, s, step) && SkipsNoSlot(s.business, t.business)
    requires ParksAreCurrent(s) && MirrorsStored(s.business, s.db.aggregates)
    ensures ParksAreCurrent(t) && MirrorsStored(t.business, t.db.aggregates)
  {
    ParksKept(c, s, step);
    MirrorsStoredKept(c, s, step);
  }

  lemma {:induction false} ParksOverRuns(c: Config<GraphTables>, run: seq<GraphSystem>, steps: seq<GraphStep>, k: nat)
    requires TameEngine(c) && IsRun(c, run, steps) && k < |run| && run[0].db == NO_ROWS && run[0].log == []
    requires NoSlotSkipped(run)
    ensures ParksAreCurrent(run[k]) && MirrorsStored(run[k].business, run[k].db.aggregates)
  {
    if k > 0 {
      ParksOverRuns(c, run, steps, k - 1);
      assert SkipsNoSlot(run[k - 1].business, run[k - 1 + 1].business);
      assert Enabled(c, run[k - 1], steps[k - 1]) && run[k - 1 + 1] == Next(c, run[k - 1], steps[k - 1]);
      ParksNext(c, run[k - 1], steps[k - 1], run[k]);
    }
  }

  // --------------------------------------------------------- from the row itself

  /** What the history holds is what the handler answered. */
  ghost predicate RepliesLogged(c: Config<GraphTables>, log: seq<Entry<GraphTables>>) {
    forall i | 0 <= i < |log| && log[i].Committed? :: log[i].reply == c.handler(log[i].input)
  }

  lemma RepliesLoggedKept(c: Config<GraphTables>, s: GraphSystem, step: GraphStep)
    requires Enabled(c, s, step) && RepliesLogged(c, s.log)
    ensures RepliesLogged(c, Next(c, s, step).log)
  {
    var t, es := Next(c, s, step), NewEntries(c, s, step);
    LogGrows(c, s, step);
    forall i | 0 <= i < |es| && es[i].Committed? ensures es[i].reply == c.handler(es[i].input) {
      if !step.Work? { OtherEntries(c, s, step); }
    }
    forall i | 0 <= i < |t.log| && t.log[i].Committed? ensures t.log[i].reply == c.handler(t.log[i].input) {
      assert t.log[i] == if i < |s.log| then s.log[i] else es[i - |s.log|];
    }
  }

  lemma {:induction false} RepliesLoggedOverRuns(c: Config<GraphTables>, run: seq<GraphSystem>, steps: seq<GraphStep>,
                                                 k: nat)
    requires IsRun(c, run, steps) && k < |run| && run[0].log == []
    ensures RepliesLogged(c, run[k].log)
  {
    if k > 0 {
      RepliesLoggedOverRuns(c, run, steps, k - 1);
      assert Enabled(c, run[k - 1], steps[k - 1]) && run[k] == Next(c, run[k - 1], steps[k - 1]);
      RepliesLoggedKept(c, run[k - 1], steps[k - 1]);
    }
  }

  /** A build_ready event of a graph that is parked and not due. */
  predicate ParkedBuild(s: GraphSystem, id: EventId, now: int) {
    && id in s.db.inbox
    && var row := s.db.inbox[id];
    && row.state.Pending? && row.waitingRef.Some? && row.nextAt > now
    && row.aggregate.kind == GRAPH_KIND && KindOf(row.kind).BuildReady?
  }

  /** The park a parked build stands on, and the slot it is on. */
  lemma ParkOf(c: Config<GraphTables>, s: GraphSystem, id: EventId, now: int)
    returns (p: nat, operator: string, slot: nat)
    requires TameEngine(c) && RepliesLogged(c, s.log) && NoLostWakeup(s) && ParkedBuild(s, id, now)
    ensures ParkedAt(s.log, id, s.db.inbox[id], p) && BuildPark(s.log[p], operator, slot)
    ensures s.db.inbox[id].waitingRef == Some(SlotRef(operator, slot))
  {
    p :| ParkedAt(s.log, id, s.db.inbox[id], p);
    var input := s.log[p].input;
    assert s.log[p].reply == c.handler(input);
    assert GraphReply(input, c.handler(input));
    operator := input.business.sessions[input.row.aggregate.id].operator;
    slot := NextSlot(input.business, operator);
  }

  /** The commit that parked the event last, with the slot it was parked on: the next one
      then of its session's operator. */
  ghost predicate LastParked(s: GraphSystem, id: EventId, p: nat, operator: string, slot: nat) {
    && p < |s.log| && Commits(s.log[p], id) && BuildPark(s.log[p], operator, slot)
    && forall k | p < k < |s.log| :: !Commits(s.log[k], id)
  }

  /** A build that is still parked once the clock passed every change waits on a slot of the
      operator whose session it had when it was parked: the next one, or one whose graph is
      stored but not yet mirrored. No build stays parked on a slot that has already been
      mirrored. */
  lemma ParkedBuildsWaitOnOpenSlots(c: Config<GraphTables>, role: Role, run: seq<GraphSystem>, steps: seq<GraphStep>,
                                    business: GraphTables, shards: nat, id: EventId, now: int)
    requires GraphEngine(c, role) && IsRun(c, run, steps) && run[0] == Init(business, shards)
    requires NoSlotSkipped(run)
    requires ParkedBuild(run[|steps|], id, now)
    requires forall e | e in run[|steps|].log && (e.Committed? || e.Notified?) :: TimeOf(e) <= now
    ensures var s := run[|steps|];
            exists p: nat, operator, slot ::
              && LastParked(s, id, p, operator, slot) && s.db.inbox[id].waitingRef == Some(SlotRef(operator, slot))
              && (slot == NextSlot(s.business, operator)
                  || StoredUnmirrored(s.business, s.db.aggregates, operator, slot))
  {
    var s := run[|steps|];
    EngineIsTame(c, role);
    ParksOverRuns(c, run, steps, |steps|);
    RepliesLoggedOverRuns(c, run, steps, |steps|);
    InitDelivers(c, business, shards);
    DeliveryOverRuns(c, run, steps);
    assert Delivery(c, s);
    ParkedInState(c, s, id, now);
  }

  lemma ParkedInState(c: Config<GraphTables>, s: GraphSystem, id: EventId, now: int)
    requires TameEngine(c) && ParksAreCurrent(s) && RepliesLogged(c, s.log) && NoLostWakeup(s)
    requires ParkedBuild(s, id, now)
    requires forall e | e in s.log && (e.Committed? || e.Notified?) :: TimeOf(e) <= now
    ensures exists p: nat, operator, slot ::
              && LastParked(s, id, p, operator, slot) && s.db.inbox[id].waitingRef == Some(SlotRef(operator, slot))
              && (slot == NextSlot(s.business, operator)
                  || StoredUnmirrored(s.business, s.db.aggregates, operator, slot))
  {
    var p, operator, slot := ParkOf(c, s, id, now);
    StillParked(s, id, p, operator, slot, now);
    assert LastParked(s, id, p, operator, slot);
  }

  lemma StillParked(s: GraphSystem, id: EventId, p: nat, operator: string, slot: nat, now: int)
    requires ParksAreCurrent(s) && id in s.db.inbox && s.db.inbox[id].waitingRef == Some(SlotRef(operator, slot))
    requires ParkedAt(s.log, id, s.db.inbox[id], p) && BuildPark(s.log[p], operator, slot)
             && s.db.inbox[id].nextAt > now
    requires forall e | e in s.log && (e.Committed? || e.Notified?) :: TimeOf(e) <= now
    ensures slot == NextSlot(s.business, operator) || StoredUnmirrored(s.business, s.db.aggregates, operator, slot)
  {
    forall q | p < q < |s.log| ensures !Changes(s.log[q], SlotRef(operator, slot)) {
      assert s.log[q] in s.log;
    }
  }

  // ------------------------------------------------- when the builder gives up

  lemma FinishKeepsWakes(role: Role, input: Input, g: string, d: Draft, ref: string)
    requires ref in d.effects.wakes
    ensures ref in FinishDraft(role, input, g, d).effects.wakes
  {
  }

  lemma FailureWakes(role: Role, input: Input, g: string, d: Draft, r: JobResult, operator: string)
    requires r.outcome.Failed? && r.action == JOB_BUILD_GRAPH && d.state.operator == Some(operator)
    ensures SlotRef(operator, NextSlot(d.tables, operator)) in ApplyJobResult(role, input, g, d, r).1.effects.wakes
  {
  }

  lemma AbandonWakes(role: Role, g: string, d: Draft, instance: string, operator: string)
    requires role.actor.Operator? && instance !in d.tables.failed && g !in d.tables.graphs && g in d.tables.sessions
    requires d.tables.sessions[g].operator == operator
    ensures SlotRef(operator, NextSlot(d.tables, operator)) in AbandonSetup(role, g, d, instance).1.effects.wakes
  {
    assert SlotsOf(DropSession(d.tables, d.tables.sessions[g].instance, operator), operator)
           == SlotsOf(d.tables, operator);
  }

  lemma DecisionWakes(role: Role, input: Input, operator: string)
    requires GivesUp(role, input, operator)
    ensures var g := input.row.aggregate.id;
            SlotRef(operator, NextSlot(input.business, operator))
            in Decide(role, input, g, Opened(role, input)).1.effects.wakes
  {
    if AbandonsSession(role, input, operator) {
      AbandonDecision(role, input, operator);
    } else {
      FailureDecision(role, input, operator);
    }
  }

  lemma AbandonDecision(role: Role, input: Input, operator: string)
    requires AbandonsSession(role, input, operator)
    ensures SlotRef(operator, NextSlot(input.business, operator))
            in Decide(role, input, input.row.aggregate.id, Opened(role, input)).1.effects.wakes
  {
    var g, d0 := input.row.aggregate.id, Opened(role, input);
    AbandonWakes(role, g, d0, role.abandoned(BytesOf(input.row.payload)).value, operator);
  }

  lemma FailureDecision(role: Role, input: Input, operator: string)
    requires BuildFailed(role, input, operator)
    ensures SlotRef(operator, NextSlot(input.business, operator))
            in Decide(role, input, input.row.aggregate.id, Opened(role, input)).1.effects.wakes
  {
    FailureWakes(role, input, input.row.aggregate.id, Opened(role, input), input.row.payload.value.result, operator);
  }

  /** A failed build and an abandoned setup wake the operator's next slot. */
  lemma GivingUpWakesNextSlot(role: Role, input: Input, operator: string)
    requires GraphApply(role, input).Decided? && GivesUp(role, input, operator)
    ensures SlotRef(operator, NextSlot(input.business, operator)) in GraphApply(role, input).effects.wakes
  {
    DecisionWakes(role, input, operator);
    ReplyKeepsWakes(role, input, SlotRef(operator, NextSlot(input.business, operator)));
  }

  lemma ReplyKeepsWakes(role: Role, input: Input, ref: string)
    requires GraphApply(role, input).Decided?
    ensures ref in Decide(role, input, input.row.aggregate.id, Opened(role, input)).1.effects.wakes ==>
              ref in GraphApply(role, input).effects.wakes
  {
    var d := Decide(role, input, input.row.aggregate.id, Opened(role, input)).1;
    if ref in d.effects.wakes { FinishKeepsWakes(role, input, input.row.aggregate.id, d, ref); }
  }

  /** The event reports that the operator's build failed, or abandons a session of the
      operator that has no definition yet. */
  ghost predicate GivesUp(role: Role, input: Input, operator: string) {
    BuildFailed(role, input, operator) || AbandonsSession(role, input, operator)
  }

  predicate BuildFailed(role: Role, input: Input, operator: string) {
    && KindOf(input.row.kind).JobResultKind? && input.row.payload.Some? && input.row.payload.value.Result?
    && input.row.payload.value.result.outcome.Failed? && input.row.payload.value.result.action == JOB_BUILD_GRAPH
    && LoadedState(role, input, input.row.aggregate.id).operator == Some(operator)
  }

  predicate AbandonsSession(role: Role, input: Input, operator: string) {
    var g := input.row.aggregate.id;
    && KindOf(input.row.kind).SetupAbandoned? && role.actor.Operator?
    && role.abandoned(BytesOf(input.row.payload)).Some?
    && role.abandoned(BytesOf(input.row.payload)).value !in input.business.failed
    && g !in input.business.graphs && g in input.business.sessions
    && input.business.sessions[g].operator == operator
  }

  /** When the builder gives up, no build is left parked behind it: every earlier park of
      the operator is woken by that commit, was woken before, or waits on a slot already
      stored and about to be mirrored. */
  lemma NobodyParkedBehindAFailure(c: Config<GraphTables>, role: Role, s: GraphSystem, step: GraphStep, p: nat,
                                   operator: string, slot: nat)
    requires GraphEngine(c, role) && Enabled(c, s, step) && CommitsApply(c, s, step) && ParksAreCurrent(s)
    requires StepInput(s, step).row.aggregate.kind == GRAPH_KIND && GivesUp(role, StepInput(s, step), operator)
    requires p < |s.log| && BuildPark(s.log[p], operator, slot)
    ensures || ChangedSince(Next(c, s, step).log, p, SlotRef(operator, slot))
            || StoredUnmirrored(s.business, s.db.aggregates, operator, slot)
  {
    GivingUpWakesNextSlot(role, StepInput(s, step), operator);
    WakeReaches(c, s, step, p, operator, slot);
  }

  lemma WakeReaches(c: Config<GraphTables>, s: GraphSystem, step: GraphStep, p: nat, operator: string, slot: nat)
    requires Enabled(c, s, step) && CommitsApply(c, s, step) && p < |s.log|
    requires ParkIsCurrent(s.business, s.db.aggregates, s.log, p, operator, slot)
    requires SlotRef(operator, NextSlot(s.business, operator)) in c.handler(StepInput(s, step)).effects.wakes
    ensures || ChangedSince(Next(c, s, step).log, p, SlotRef(operator, slot))
            || StoredUnmirrored(s.business, s.db.aggregates, operator, slot)
  {
    var t, es := Next(c, s, step), NewEntries(c, s, step);
    LogGrows(c, s, step);
    if slot == NextSlot(s.business, operator) {
      assert es == [Committed(StepInput(s, step), c.handler(StepInput(s, step)))]
             && Changes(es[0], SlotRef(operator, slot));
      assert t.log[|s.log|] == es[0];
    } else if ChangedSince(s.log, p, SlotRef(operator, slot)) {
      var q :| p < q < |s.log| && Changes(s.log[q], SlotRef(operator, slot));
      assert t.log[q] == s.log[q];
    }
  }

  lemma UnfinishedResult(role: Role, input: Input, g: string, d: Draft, r: JobResult)
    requires !r.outcome.Done? && r.action == JOB_BUILD_GRAPH
    ensures var (outcome, after) := ApplyJobResult(role, input, g, d, r);
            && !outcome.Reject? && after.tables == d.tables
            && after.effects.wakes
               == d.effects.wakes + if r.outcome.Failed? && d.state.operator.Some?
                                    then [SlotRef(d.state.operator.value, NextSlot(d.tables, d.state.operator.value))]
                                      else []
  {
  }

  /** Finishing wakes at most the graph's own slot, which is never its operator's next one. */
  lemma FinishWakesNoNextSlot(role: Role, input: Input, g: string, d: Draft, operator: string)
    ensures var ref := SlotRef(operator, NextSlot(d.tables, operator));
            ref in FinishDraft(role, input, g, d).effects.wakes <==> ref in d.effects.wakes
  {
    var ref := SlotRef(operator, NextSlot(d.tables, operator));
    if g in d.tables.graphs {
      var row := d.tables.graphs[g];
      assert row.operator == operator ==> row.slot in SlotsOf(d.tables, operator);
      if ref == SlotRef(row.operator, row.slot) {
        SlotRefInjective(operator, NextSlot(d.tables, operator), row.operator, row.slot);
      }
    }
  }

  /** The event reports a build that did not succeed. */
  ghost predicate UnfinishedBuild(role: Role, input: Input) {
    && GraphApply(role, input).Decided? && KindOf(input.row.kind).JobResultKind?
    && input.row.payload.value.result.action == JOB_BUILD_GRAPH && !input.row.payload.value.result.outcome.Done?
  }

  /** A build that did not succeed wakes the builds behind it exactly when it failed and its
      operator is known: a panic, a cancel, or a failure without an operator wakes nobody
      by itself. */
  lemma UnfinishedBuildWakesIff(role: Role, input: Input, operator: string)
    requires UnfinishedBuild(role, input)
    ensures SlotRef(operator, NextSlot(input.business, operator)) in GraphApply(role, input).effects.wakes
            <==> (input.row.payload.value.result.outcome.Failed?
                  && LoadedState(role, input, input.row.aggregate.id).operator == Some(operator))
  {
    var g, d0 := input.row.aggregate.id, Opened(role, input);
    UnfinishedResult(role, input, g, d0, input.row.payload.value.result);
    FinishWakesNoNextSlot(role, input, g, Decide(role, input, g, d0).1, operator);
    var known := d0.state.operator;
    var b := input.business;
    if known.Some? && SlotRef(operator, NextSlot(b, operator)) == SlotRef(known.value, NextSlot(b, known.value)) {
      SlotRefInjective(operator, NextSlot(b, operator), known.value, NextSlot(b, known.value));
    }
  }
}
