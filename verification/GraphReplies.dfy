/** What every reply of the Graph aggregate keeps, whatever event it answers. */
module GraphReplies {
  import opened Common
  import opened EngineTypes
  import opened EngineMachine
  import opened GraphStatuses
  import opened GraphModel

  predicate SameDefinition(a: GraphRow, b: GraphRow) {
    a.instance == b.instance && a.operator == b.operator && a.slot == b.slot
  }

  /** An apply of graph `g` stores no definition, opens no session, fails no instance, and
      moves no status but its own. */
  ghost predicate TablesTame(b: GraphTables, after: GraphTables, g: string) {
    && after.failed == b.failed && after.graphs.Keys == b.graphs.Keys
    && (forall h | h in b.graphs :: SameDefinition(b.graphs[h], after.graphs[h]))
    && (forall h | h in b.graphs && h != g :: after.graphs[h] == b.graphs[h])
    && (forall h | h in after.sessions :: h in b.sessions && after.sessions[h] == b.sessions[h])
  }

  /** The only situation in which a build is enqueued. */
  predicate BuildAllowed(b: GraphTables, jobs: map<string, JobRow>, kind: EventKind, g: string) {
    && kind.BuildReady? && g !in b.graphs && g in b.sessions && b.sessions[g].instance !in b.failed
    && !SiblingBuilding(b, jobs, b.sessions[g].operator, g)
  }

  ghost predicate BuildsAllowed(input: Input, jobs: seq<JobSpec>, g: string) {
    forall i | 0 <= i < |jobs| && jobs[i].action == JOB_BUILD_GRAPH ::
      BuildAllowed(input.business, input.tables.jobs, KindOf(input.row.kind), g)
  }

  predicate SetupPhase(phase: string) { phase == JOB_PHASE || phase == PHASE_POST }

  /** No delivery and no setup or post job. */
  ghost predicate Quiet(e: Effects) {
    e.outbox == [] && forall i | 0 <= i < |e.jobs| :: !SetupPhase(e.jobs[i].phase)
  }

  /** Nothing new is sent or enqueued for a graph that ends up retired. */
  ghost predicate QuietIfRetired(d: Draft, g: string) { IsRetired(StatusOf(d.tables, g)) ==> Quiet(d.effects) }

  ghost predicate TameDraft(input: Input, d: Draft, g: string) {
    TablesTame(input.business, d.tables, g) && BuildsAllowed(input, d.effects.jobs, g) && QuietIfRetired(d, g)
  }

  /** Peg-out plans send no messages and only ask for peg-out jobs. */
  ghost predicate PegoutPlansQuiet(role: Role) {
    forall action, bytes | action in PEGOUT_JOBS && role.plan(action, bytes).Some? ::
      role.plan(action, bytes).value.messages == [] && role.plan(action, bytes).value.next == []
  }

  predicate Fresh(input: Input, d: Draft) { d.effects == NO_EFFECTS && d.tables == input.business }

  lemma PhasesDiffer()
    ensures !SetupPhase(PHASE_KICKOFF) && !SetupPhase(PHASE_SETTLEMENT)
  {
    assert PHASE_KICKOFF[0] == 'K' && PHASE_SETTLEMENT[0] == 'S' && JOB_PHASE[0] == 'g' && PHASE_POST[0] == 'P';
  }

  lemma ActionsDiffer()
    ensures JOB_OPERATOR_INIT != JOB_BUILD_GRAPH && JOB_FETCH_GRAPH != JOB_BUILD_GRAPH
            && JOB_POST_GRAPH_DATA != JOB_BUILD_GRAPH
  {
    assert JOB_OPERATOR_INIT[0] == 'o' && JOB_FETCH_GRAPH[0] == 'f' && JOB_POST_GRAPH_DATA[0] == 'p'
           && JOB_BUILD_GRAPH[0] == 'b';
  }

  lemma OneSetupJob(role: Role, input: Input, g: string, d: Draft, action: string, params: Bytes)
    requires Fresh(input, d) && action != JOB_BUILD_GRAPH && !IsRetired(StatusOf(d.tables, g))
    ensures TameDraft(input, EnqueueSetup(role, g, d, action, params), g)
  {
  }

  lemma ParkTame(role: Role, input: Input, g: string, d: Draft, m: Inbound, lookup: Lookup, ref: string)
    requires Fresh(input, d) && !IsRetired(StatusOf(d.tables, g))
    ensures TameDraft(input, ParkForDefinition(role, input, g, d, m, lookup, ref).1, g)
  {
    ActionsDiffer();
    OneSetupJob(role, input, g, d, JOB_FETCH_GRAPH, role.encodeLookup(lookup));
  }

  lemma RoundTame(role: Role, input: Input, g: string, d: Draft, m: Inbound, action: string, bytes: Bytes)
    requires Fresh(input, d) && !IsRetired(StatusOf(d.tables, g)) && action != JOB_BUILD_GRAPH
    ensures TameDraft(input, ApplyRoundMessage(role, input, g, d, m, action, bytes).1, g)
  {
    ParkTame(role, input, g, d, m, ById(m.instance, g, false), GraphRef(g).WakeRef());
    OneSetupJob(role, input, g, d, action, bytes);
  }

  lemma CreateTame(role: Role, input: Input, g: string, d: Draft, m: Inbound, action: string, bytes: Bytes)
    requires Fresh(input, d) && !IsRetired(StatusOf(d.tables, g)) && action != JOB_BUILD_GRAPH
    ensures TameDraft(input, ApplyCreateGraph(role, input, g, d, m, action, bytes).1, g)
  {
    OneSetupJob(role, input, g, d, action, bytes);
    if m.operator.Some? && m.nonce.Some? && m.nonce.value > 0 {
      ParkTame(role, input, g, d, m, BySlot(m.operator.value, m.nonce.value - 1),
               SlotRef(m.operator.value, m.nonce.value - 1));
    }
  }

  lemma FreshTame(input: Input, g: string, d: Draft)
    requires Fresh(input, d)
    ensures TameDraft(input, d, g)
  {
  }

  lemma MessageTame(role: Role, input: Input, g: string, d: Draft, kind: EventKind, bytes: Bytes)
    requires Fresh(input, d)
    ensures TameDraft(input, ApplyMessage(role, input, g, d, kind, bytes).1, g)
  {
    FreshTame(input, g, d);
    var decoded, action := role.inbound(bytes), RouteAction(kind, role.actor);
    if decoded.Some? && action.Some? && !IsRetired(StatusOf(d.tables, g)) {
      var m, d1 := decoded.value, d.(state := FillState(d.state, decoded.value));
      OneSetupJob(role, input, g, d1, action.value, bytes);
      RoundTame(role, input, g, d1, m, action.value, bytes);
      CreateTame(role, input, g, d1, m, action.value, bytes);
      FreshTame(input, g, d1);
    }
  }

  lemma {:induction false} PlannedJobsTame(role: Role, g: string, next: seq<NextJob>, now: int)
    ensures forall i | 0 <= i < |PlannedJobs(role, g, next, now)| ::
            PlannedJobs(role, g, next, now)[i].action != JOB_BUILD_GRAPH
  {
    if next != [] { PlannedJobsTame(role, g, next[..|next| - 1], now); }
  }

  lemma PlanTame(role: Role, input: Input, g: string, d: Draft, plan: GraphPlan)
    requires Fresh(input, d) && (IsRetired(StatusOf(d.tables, g)) ==> plan.messages == [] && plan.next == [])
    ensures TameDraft(input, ApplyPlan(role, input, g, d, plan), g)
  {
    PlannedJobsTame(role, g, plan.next, input.now);
    var after := ApplyPlan(role, input, g, d, plan);
    assert after.effects.jobs == PlannedJobs(role, g, plan.next, input.now);
    assert after.effects.outbox == plan.messages;
  }

  lemma ResultTame(role: Role, input: Input, g: string, d: Draft, r: JobResult)
    requires Fresh(input, d) && PegoutPlansQuiet(role)
    ensures TameDraft(input, ApplyJobResult(role, input, g, d, r).1, g)
  {
    if r.outcome.Done? {
      var plan := role.plan(r.action, r.outcome.result);
      if plan.Some? {
        PlanTame(role, input, g, d, EffectivePlan(plan.value, StatusOf(d.tables, g), r.action));
      }
    }
  }

  lemma BuildReadyTame(role: Role, input: Input, g: string, d: Draft)
    requires Fresh(input, d) && KindOf(input.row.kind).BuildReady?
    ensures TameDraft(input, ApplyBuildReady(role, input, g, d).1, g)
  {
  }

  lemma AbandonTame(role: Role, input: Input, g: string, d: Draft, instance: string)
    requires Fresh(input, d)
    ensures TameDraft(input, AbandonSetup(role, g, d, instance).1, g)
  {
    FreshTame(input, g, d);
    if g in d.tables.graphs {
      var d1 := d.(tables := TransitionGraph(d.tables, g, Obsoleted));
      assert TameDraft(input, d1, g);
      if g in d1.tables.sessions { ReleaseTame(input, d1, g); }
    } else if g in d.tables.sessions {
      ReleaseTame(input, d, g);
    }
  }

  lemma ReleaseTame(input: Input, d: Draft, g: string)
    requires TameDraft(input, d, g) && g in d.tables.sessions
    ensures TameDraft(input, ReleaseSession(d, g), g)
  {
    assert ReleaseSession(d, g).effects.jobs == d.effects.jobs
           && ReleaseSession(d, g).effects.outbox == d.effects.outbox;
    assert ReleaseSession(d, g).tables
           == DropSession(d.tables, d.tables.sessions[g].instance, d.tables.sessions[g].operator);
  }

  lemma PegoutTame(role: Role, input: Input, g: string, d: Draft, kind: EventKind)
    requires Fresh(input, d) && forall i | 0 <= i < |role.pegout(kind, input, d.state).jobs| ::
                                   role.pegout(kind, input, d.state).jobs[i].action != JOB_BUILD_GRAPH
    ensures TameDraft(input, ApplyPegout(role, input, g, d, kind).1, g)
  {
    PhasesDiffer();
    var p := role.pegout(kind, input, d.state);
    assert ApplyPegout(role, input, g, d, kind).1.effects.jobs == PegoutSpecs(role, g, p.jobs);
  }

  /** Peg-out events ask for peg-out jobs. */
  ghost predicate PegoutMovesTame(role: Role) {
    forall kind, input, st, i | 0 <= i < |role.pegout(kind, input, st).jobs| ::
      role.pegout(kind, input, st).jobs[i].action in PEGOUT_JOBS
  }

  lemma BuildIsNoPegout()
    ensures JOB_BUILD_GRAPH !in PEGOUT_JOBS
  {
    assert forall a | a in PEGOUT_JOBS :: a[0] != 'b' || |a| != |JOB_BUILD_GRAPH|;
  }

  ghost predicate Documented(role: Role) { PegoutPlansQuiet(role) && PegoutMovesTame(role) }

  lemma DecideTame(role: Role, input: Input, g: string, d: Draft)
    requires Fresh(input, d) && Documented(role)
    requires KindOf(input.row.kind).JobResultKind? ==> input.row.payload.Some? && input.row.payload.value.Result?
    ensures TameDraft(input, Decide(role, input, g, d).1, g)
  {
    var bytes := BytesOf(input.row.payload);
    var kind := KindOf(input.row.kind);
    ActionsDiffer();
    match kind
    case JobResultKind => ResultTame(role, input, g, d, input.row.payload.value.result);
    case OperatorStart => StartTame(role, input, g, d, bytes);
    case GraphPulled => PulledTame(role, input, g, d, bytes);
    case GraphPosted =>
    case GoatStatus =>
    case BuildReady => BuildReadyTame(role, input, g, d);
    case SetupAbandoned =>
      var instance := role.abandoned(bytes);
      if instance.Some? { AbandonTame(role, input, g, d, instance.value); }
    case WithdrawInit => DecidePegout(role, input, g, d, kind);
    case WithdrawCancel => DecidePegout(role, input, g, d, kind);
    case ChainScan => DecidePegout(role, input, g, d, kind);
    case GraphPull => PullTame(role, input, g, d, bytes);
    case _ => MessageTame(role, input, g, d, kind, bytes);
  }

  lemma DecidePegout(role: Role, input: Input, g: string, d: Draft, kind: EventKind)
    requires Fresh(input, d) && PegoutMovesTame(role)
    ensures TameDraft(input, ApplyPegout(role, input, g, d, kind).1, g)
  {
    BuildIsNoPegout();
    PegoutTame(role, input, g, d, kind);
  }

  lemma StartTame(role: Role, input: Input, g: string, d: Draft, bytes: Bytes)
    requires Fresh(input, d)
    ensures TameDraft(input, ApplyStart(role, input, g, d, bytes).1, g)
  {
    ActionsDiffer();
  }

  lemma PulledTame(role: Role, input: Input, g: string, d: Draft, bytes: Bytes)
    requires Fresh(input, d)
    ensures TameDraft(input, ApplyPulled(role, g, d, bytes).1, g)
  {
    ActionsDiffer();
  }

  lemma PullTame(role: Role, input: Input, g: string, d: Draft, bytes: Bytes)
    requires Fresh(input, d)
    ensures TameDraft(input, ApplyPull(role, g, d, bytes).1, g)
  {
    ActionsDiffer();
  }

  // -------------------------------------------------------------- whole replies

  /** The stored status is mirrored, and a change of it wakes the slot. */
  ghost predicate Mirrors(input: Input, e: Effects, after: GraphTables, g: string) {
    && e.status == Some(NameOf(StatusOf(after, g)))
    && (g in after.graphs && NameOf(StatusOf(after, g)) != MirroredStatus(input.current) ==>
          SlotRef(after.graphs[g].operator, after.graphs[g].slot) in e.wakes)
  }

  /** A graph that stays retired gets nothing new; one that becomes retired has its
      deliveries closed and its setup and post jobs cancelled. */
  ghost predicate Retires(input: Input, e: Effects, after: GraphTables, g: string) {
    IsRetired(StatusOf(after, g)) ==>
      if NameOf(StatusOf(after, g)) == MirroredStatus(input.current) then Quiet(e)
      else
        && CloseAggregate(GraphRef(g)) in e.closes
        && CancelPhase(PHASE_POST) in e.cancels && CancelPhase(JOB_PHASE) in e.cancels
  }

  /** A build parks only behind a sibling, on the slot that sibling will take. */
  ghost predicate ParksOnNext(input: Input, verdict: Verdict, after: GraphTables, g: string) {
    KindOf(input.row.kind).BuildReady? && verdict.Park? ==>
      && g in input.business.sessions && after.graphs == input.business.graphs
      && (var operator := input.business.sessions[g].operator;
          verdict.ref == SlotRef(operator, NextSlot(input.business, operator)))
  }

  ghost predicate GraphReply(input: Input, reply: Reply<GraphTables>) {
    reply.Decided? ==>
      var g := input.row.aggregate.id;
      && TablesTame(input.business, reply.business, g) && BuildsAllowed(input, reply.effects.jobs, g)
      && Mirrors(input, reply.effects, reply.business, g) && Retires(input, reply.effects, reply.business, g)
      && ParksOnNext(input, reply.verdict, reply.business, g)
  }

  lemma ChangeEffects(g: string, d: Draft)
    ensures var after := OnChange(g, d);
            && after.tables == d.tables && after.effects.jobs == d.effects.jobs
            && after.effects.outbox == d.effects.outbox
            && (g in d.tables.graphs ==>
                SlotRef(d.tables.graphs[g].operator, d.tables.graphs[g].slot) in after.effects.wakes)
            && (IsRetired(StatusOf(d.tables, g)) ==>
                  && CloseAggregate(GraphRef(g)) in after.effects.closes
                  && CancelPhase(PHASE_POST) in after.effects.cancels
                  && CancelPhase(JOB_PHASE) in after.effects.cancels)
  {
  }

  lemma FinishTame(role: Role, input: Input, g: string, d: Draft)
    requires TameDraft(input, d, g)
    ensures var done := FinishDraft(role, input, g, d);
            && done.tables == d.tables && BuildsAllowed(input, done.effects.jobs, g)
            && Mirrors(input, done.effects, done.tables, g) && Retires(input, done.effects, done.tables, g)
  {
    ChangeEffects(g, d);
  }

  lemma ParksTame(role: Role, input: Input, g: string, d: Draft)
    requires Fresh(input, d)
    requires KindOf(input.row.kind).JobResultKind? ==> input.row.payload.Some? && input.row.payload.value.Result?
    ensures var (outcome, after) := Decide(role, input, g, d);
            ParksOnNext(input, if outcome.WaitFor? then Park(outcome.ref) else Accept, after.tables, g)
  {
    if KindOf(input.row.kind).BuildReady? {
      assert Decide(role, input, g, d) == ApplyBuildReady(role, input, g, d);
    }
  }

  /** Every reply of the aggregate is tame. */
  lemma ReplyTame(role: Role, input: Input)
    requires Documented(role)
    ensures GraphReply(input, GraphApply(role, input))
  {
    var reply := GraphApply(role, input);
    if reply.Decided? {
      var g, d0 := input.row.aggregate.id, Opened(role, input);
      DecideTame(role, input, g, d0);
      ParksTame(role, input, g, d0);
      FinishTame(role, input, g, Decide(role, input, g, d0).1);
    }
  }
}
