/** Events of the Graph aggregate that wait for a definition: a build behind its sibling, a
    new graph behind the previous slot, a round message behind its own graph. None of them
    stays parked once that definition is stored and mirrored, over whole runs. */
module GraphWaits {
  import opened Common
  import opened EngineTypes
  import opened EngineTables
  import opened EngineMachine
  import opened EngineDelivery
  import opened GraphModel
  import opened GraphReplies
  import opened GraphRuns
  import opened GraphParks

  /** The definition an event waits for: the one of a slot, or the one of a graph. */
  datatype Awaited = AwaitSlot(operator: string, slot: nat) | AwaitGraph(graph: string) {
    function Ref(): string {
      match this
      case AwaitSlot(operator, slot) => SlotRef(operator, slot)
      case AwaitGraph(g) => GraphRef(g).WakeRef()
    }

    predicate Stored(b: GraphTables) {
      match this
      case AwaitSlot(operator, slot) => SlotStored(b, operator, slot)
      case AwaitGraph(g) => g in b.graphs
    }

    /** Stored, and the aggregate that will wake its waiters has yet to see it. */
    ghost predicate Unmirrored(b: GraphTables, aggregates: map<AggregateRef, AggregateRow>) {
      match this
      case AwaitSlot(operator, slot) => StoredUnmirrored(b, aggregates, operator, slot)
      case AwaitGraph(g) => g in b.graphs && MirroredName(aggregates, g) == ""
    }
  }

  /** Peg-out events wait for the chain, all others for a definition. */
  predicate AboutDefinitions(kind: EventKind) { !kind.WithdrawInit? && !kind.WithdrawCancel? && !kind.ChainScan? }

  // ------------------------------------------------------------- what parks wait for

  /** A park waits for a definition that is not there. */
  ghost predicate ParksOnMissing(input: Input, verdict: Verdict) {
    verdict.Park? && AboutDefinitions(KindOf(input.row.kind)) ==>
      exists a: Awaited :: verdict.ref == a.Ref() && !a.Stored(input.business)
  }

  lemma MessageParks(role: Role, input: Input, g: string, d: Draft, kind: EventKind, bytes: Bytes)
    requires Fresh(input, d)
    ensures var outcome := ApplyMessage(role, input, g, d, kind, bytes).0;
            outcome.WaitFor? ==> exists a: Awaited :: outcome.ref == a.Ref() && !a.Stored(input.business)
  {
    var outcome := ApplyMessage(role, input, g, d, kind, bytes).0;
    if outcome.WaitFor? {
      var m := role.inbound(bytes).value;
      if kind.CreateGraph? {
        CreateParks(role, input, g, d.(state := FillState(d.state, m)), m, RouteAction(kind, role.actor).value, bytes);
      } else {
        assert outcome.ref == AwaitGraph(g).Ref();
      }
    }
  }

  lemma CreateParks(role: Role, input: Input, g: string, d: Draft, m: Inbound, action: string, bytes: Bytes)
    requires Fresh(input, d) && ApplyCreateGraph(role, input, g, d, m, action, bytes).0.WaitFor?
    ensures var ref := ApplyCreateGraph(role, input, g, d, m, action, bytes).0.ref;
            exists a: Awaited :: ref == a.Ref() && !a.Stored(input.business)
  {
    var a := AwaitSlot(m.operator.value, m.nonce.value - 1);
    assert ApplyCreateGraph(role, input, g, d, m, action, bytes).0.ref == a.Ref() && !a.Stored(input.business);
  }

  lemma BuildParks(role: Role, input: Input, g: string, d: Draft)
    requires Fresh(input, d) && ApplyBuildReady(role, input, g, d).0.WaitFor?
    ensures var ref := ApplyBuildReady(role, input, g, d).0.ref;
            exists a: Awaited :: ref == a.Ref() && !a.Stored(input.business)
  {
    var b := input.business;
    var a := AwaitSlot(b.sessions[g].operator, NextSlot(b, b.sessions[g].operator));
    forall h | h in b.graphs && b.graphs[h].operator == a.operator ensures b.graphs[h].slot != a.slot {
      assert b.graphs[h].slot in SlotsOf(b, a.operator);
    }
    assert ApplyBuildReady(role, input, g, d).0.ref == a.Ref() && !a.Stored(b);
  }

  /** Only builds and messages ever park on something other than the chain. */
  lemma OthersDoNotPark(role: Role, input: Input, g: string, d: Draft)
    requires KindOf(input.row.kind).JobResultKind? ==> input.row.payload.Some? && input.row.payload.value.Result?
    requires var kind := KindOf(input.row.kind);
             kind.JobResultKind? || kind.OperatorStart? || kind.GraphPulled? || kind.GraphPosted? || kind.GoatStatus?
             || kind.SetupAbandoned? || kind.GraphPull?
    ensures !Decide(role, input, g, d).0.WaitFor?
  {
  }

  lemma ReplyParksOnMissing(role: Role, input: Input)
    requires GraphApply(role, input).Decided?
    ensures ParksOnMissing(input, GraphApply(role, input).verdict)
  {
    var g, d, kind := input.row.aggregate.id, Opened(role, input), KindOf(input.row.kind);
    if GraphApply(role, input).verdict.Park? && AboutDefinitions(kind) {
      assert Decide(role, input, g, d).0.WaitFor?
             && GraphApply(role, input).verdict.ref == Decide(role, input, g, d).0.ref;
      if kind.BuildReady? {
        BuildParks(role, input, g, d);
      } else if kind.JobResultKind? || kind.OperatorStart? || kind.GraphPulled? || kind.GraphPosted? || kind.GoatStatus?
                || kind.SetupAbandoned? || kind.GraphPull? {
        OthersDoNotPark(role, input, g, d);
      } else {
        MessageParks(role, input, g, d, kind, BytesOf(input.row.payload));
      }
    }
  }

  // ------------------------------------------------------------------ over whole runs

  /** Entry `e` parked an event of the aggregate, which waits for `a`. */
  ghost predicate DefinitionPark(e: Entry<GraphTables>, a: Awaited) {
    && e.Committed? && e.reply.Decided? && e.input.row.aggregate.kind == GRAPH_KIND
    && AboutDefinitions(KindOf(e.input.row.kind)) && e.reply.verdict == Park(a.Ref()) && !a.Stored(e.input.business)
  }

  /** What the event waits for is missing, or about to be mirrored, or the event was woken. */
  ghost predicate WaitIsCurrent(b: GraphTables, aggregates: map<AggregateRef, AggregateRow>,
                                log: seq<Entry<GraphTables>>, p: int, a: Awaited)
  {
    !a.Stored(b) || a.Unmirrored(b, aggregates) || ChangedSince(log, p, a.Ref())
  }

  ghost predicate WaitsAreCurrent(s: GraphSystem) {
    forall p, a | 0 <= p < |s.log| && DefinitionPark(s.log[p], a) ::
      WaitIsCurrent(s.business, s.db.aggregates, s.log, p, a)
  }

  /** A definition that appears is not mirrored yet. */
  lemma AppearsUnmirrored(c: Config<GraphTables>, s: GraphSystem, step: GraphStep, a: Awaited)
    requires TameEngine(c) && Enabled(c, s, step) && MirrorsStored(s.business, s.db.aggregates)
    requires !a.Stored(s.business) && a.Stored(Next(c, s, step).business)
    ensures a.Unmirrored(Next(c, s, step).business, Next(c, s, step).db.aggregates)
  {
    var b, t := s.business, Next(c, s, step);
    StepTables(c, s, step);
    var g;
    match a {
      case AwaitGraph(h) => g := h;
      case AwaitSlot(operator, slot) =>
        g :| g in t.business.graphs && t.business.graphs[g].operator == operator && t.business.graphs[g].slot == slot;
        assert g in b.graphs ==> SameDefinition(b.graphs[g], t.business.graphs[g]) && SlotStored(b, operator, slot);
    }
    assert g !in b.graphs;
    NewGraphsUnmirrored(c, s, step, g);
    assert MirroredName(t.db.aggregates, g) == "";
  }

  /** Mirroring a stored graph also wakes those who wait on the graph itself. */
  lemma MirroringWakesOwn(c: Config<GraphTables>, s: GraphSystem, step: GraphStep, g: string)
    requires TameEngine(c) && Enabled(c, s, step) && g in s.business.graphs
    requires MirroredName(s.db.aggregates, g) == "" && MirroredName(Next(c, s, step).db.aggregates, g) != ""
    ensures |NewEntries(c, s, step)| == 1 && Changes(NewEntries(c, s, step)[0], GraphRef(g).WakeRef())
  {
    StepAggregates(c, s, step);
    if CommitsApply(c, s, step) {
      var input := StepInput(s, step);
      assert input.row.aggregate == GraphRef(g);
      assert UpsertAggregate(input.current, c.handler(input).effects, input.id).status != "";
    }
  }

  lemma UnmirroredStays(c: Config<GraphTables>, s: GraphSystem, step: GraphStep, p: nat, a: Awaited)
    requires TameEngine(c) && Enabled(c, s, step) && p < |s.log| && a.Unmirrored(s.business, s.db.aggregates)
    ensures var t := Next(c, s, step); WaitIsCurrent(t.business, t.db.aggregates, t.log, p, a)
  {
    match a
    case AwaitSlot(operator, slot) => StoredPark(c, s, step, p, operator, slot);
    case AwaitGraph(g) =>
      var t := Next(c, s, step);
      LogGrows(c, s, step);
      StepTables(c, s, step);
      if MirroredName(t.db.aggregates, g) != "" {
        MirroringWakesOwn(c, s, step, g);
        assert t.log[|s.log|] == NewEntries(c, s, step)[0];
      }
  }

  lemma OldWait(c: Config<GraphTables>, s: GraphSystem, step: GraphStep, p: nat, a: Awaited)
    requires TameEngine(c) && Enabled(c, s, step) && p < |s.log| && MirrorsStored(s.business, s.db.aggregates)
    requires WaitIsCurrent(s.business, s.db.aggregates, s.log, p, a)
    ensures var t := Next(c, s, step); WaitIsCurrent(t.business, t.db.aggregates, t.log, p, a)
  {
    var t := Next(c, s, step);
    LogGrows(c, s, step);
    if ChangedSince(s.log, p, a.Ref()) {
      var q :| p < q < |s.log| && Changes(s.log[q], a.Ref());
      assert t.log[q] == s.log[q];
    } else if a.Unmirrored(s.business, s.db.aggregates) {
      UnmirroredStays(c, s, step, p, a);
    } else if a.Stored(t.business) {
      AppearsUnmirrored(c, s, step, a);
    }
  }

  lemma NewWait(c: Config<GraphTables>, s: GraphSystem, step: GraphStep, i: nat, a: Awaited)
    requires TameEngine(c) && Enabled(c, s, step)
    requires i < |NewEntries(c, s, step)| && DefinitionPark(NewEntries(c, s, step)[i], a)
    ensures !a.Stored(Next(c, s, step).business)
  {
    if step.Work? {
      var input := StepInput(s, step);
      StepTables(c, s, step);
      assert GraphReply(input, c.handler(input));
    } else {
      OtherEntries(c, s, step);
      assert false;
    }
  }

  lemma WaitsKept(c: Config<GraphTables>, s: GraphSystem, step: GraphStep)
    requires TameEngine(c) && Enabled(c, s, step) && WaitsAreCurrent(s) && MirrorsStored(s.business, s.db.aggregates)
    ensures WaitsAreCurrent(Next(c, s, step))
  {
    var t, es := Next(c, s, step), NewEntries(c, s, step);
    LogGrows(c, s, step);
    forall p, a | 0 <= p < |s.log| && DefinitionPark(s.log[p], a)
      ensures WaitIsCurrent(t.business, t.db.aggregates, t.log, p, a)
    {
      OldWait(c, s, step, p, a);
    }
    forall i, a | 0 <= i < |es| && DefinitionPark(es[i], a) ensures !a.Stored(t.business) {
      NewWait(c, s, step, i, a);
    }
    WaitsJoin(t, s.log, es);
  }

  lemma WaitsJoin(t: GraphSystem, log: seq<Entry<GraphTables>>, es: seq<Entry<GraphTables>>)
    requires t.log == log + es
    requires forall p, a | 0 <= p < |log| && DefinitionPark(log[p], a) ::
               WaitIsCurrent(t.business, t.db.aggregates, t.log, p, a)
    requires forall i, a | 0 <= i < |es| && DefinitionPark(es[i], a) :: !a.Stored(t.business)
    ensures WaitsAreCurrent(t)
  {
    forall p, a | 0 <= p < |t.log| && DefinitionPark(t.log[p], a)
      ensures WaitIsCurrent(t.business, t.db.aggregates, t.log, p, a)
    {
      assert t.log[p] == if p < |log| then log[p] else es[p - |log|];
    }
  }

  lemma {:induction false} WaitsOverRuns(c: Config<GraphTables>, run: seq<GraphSystem>, steps: seq<GraphStep>, k: nat)
    requires TameEngine(c) && IsRun(c, run, steps) && k < |run| && run[0].db == NO_ROWS && run[0].log == []
    ensures WaitsAreCurrent(run[k]) && MirrorsStored(run[k].business, run[k].db.aggregates)
  {
    if k > 0 {
      WaitsOverRuns(c, run, steps, k - 1);
      var s, step := run[k - 1], steps[k - 1];
      assert Enabled(c, s, step) && run[k] == Next(c, s, step);
      WaitsKept(c, s, step);
      MirrorsStoredKept(c, s, step);
    }
  }

  /** An event of a graph that is parked and not due, and does not wait for the chain. */
  predicate ParkedEvent(s: GraphSystem, id: EventId, now: int) {
    && id in s.db.inbox
    && var row := s.db.inbox[id];
    && row.state.Pending? && row.waitingRef.Some? && row.nextAt > now
    && row.aggregate.kind == GRAPH_KIND && AboutDefinitions(KindOf(row.kind))
  }

  lemma WaitOf(c: Config<GraphTables>, role: Role, s: GraphSystem, id: EventId, now: int) returns (p: nat, a: Awaited)
    requires GraphEngine(c, role) && RepliesLogged(c, s.log) && NoLostWakeup(s) && ParkedEvent(s, id, now)
    ensures ParkedAt(s.log, id, s.db.inbox[id], p) && DefinitionPark(s.log[p], a)
    ensures s.db.inbox[id].waitingRef == Some(a.Ref())
  {
    p :| ParkedAt(s.log, id, s.db.inbox[id], p);
    var input := s.log[p].input;
    assert s.log[p].reply == c.handler(input) == GraphApply(role, input);
    ReplyParksOnMissing(role, input);
    a :| s.log[p].reply.verdict.ref == a.Ref() && !a.Stored(input.business);
  }

  lemma StillWaits(s: GraphSystem, id: EventId, p: nat, a: Awaited, now: int)
    requires WaitsAreCurrent(s) && id in s.db.inbox && s.db.inbox[id].waitingRef == Some(a.Ref())
    requires ParkedAt(s.log, id, s.db.inbox[id], p) && DefinitionPark(s.log[p], a) && s.db.inbox[id].nextAt > now
    requires forall e | e in s.log && (e.Committed? || e.Notified?) :: TimeOf(e) <= now
    ensures !a.Stored(s.business) || a.Unmirrored(s.business, s.db.aggregates)
  {
    forall q | p < q < |s.log| ensures !Changes(s.log[q], a.Ref()) {
      assert s.log[q] in s.log;
    }
  }

  /** An event that is still parked once the clock passed every change waits for a definition
      that is missing, or stored and not yet mirrored. Nobody stays parked on a definition
      that has been mirrored, in every reachable state. */
  lemma ParkedEventsWaitForMissing(c: Config<GraphTables>, role: Role, run: seq<GraphSystem>, steps: seq<GraphStep>,
                                   business: GraphTables, shards: nat, id: EventId, now: int)
    requires GraphEngine(c, role) && IsRun(c, run, steps) && run[0] == Init(business, shards)
    requires ParkedEvent(run[|steps|], id, now)
    requires forall e | e in run[|steps|].log && (e.Committed? || e.Notified?) :: TimeOf(e) <= now
    ensures var s := run[|steps|];
            exists a: Awaited ::
              && s.db.inbox[id].waitingRef == Some(a.Ref())
              && (!a.Stored(s.business) || a.Unmirrored(s.business, s.db.aggregates))
  {
    var s := run[|steps|];
    EngineIsTame(c, role);
    WaitsOverRuns(c, run, steps, |steps|);
    RepliesLoggedOverRuns(c, run, steps, |steps|);
    InitDelivers(c, business, shards);
    DeliveryOverRuns(c, run, steps);
    assert Delivery(c, s);
    var p, a := WaitOf(c, role, s, id, now);
    StillWaits(s, id, p, a, now);
  }
}
