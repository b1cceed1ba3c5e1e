/** The Graph aggregate's handler statement by statement: the context it fills, its loops
    over sessions, definitions and plans, and the whole apply. */
module GraphHandler {
  import opened Common
  import opened EngineTypes
  import opened EngineMachine
  import opened GraphStatuses
  import opened GraphModel

  class ApplyContext {
    var effects: Effects
    var tables: GraphTables
    var recorded: seq<NewEvent>
    var cleared: seq<string>
    var state: GraphState

    function Draft(): Draft
      reads this
    {
      GraphModel.Draft(effects, tables, recorded, cleared, state)
    }

    constructor (tables: GraphTables, state: GraphState)
      ensures Draft() == GraphModel.Draft(NO_EFFECTS, tables, [], [], state)
    {
      effects, this.tables, recorded, cleared, this.state := NO_EFFECTS, tables, [], [], state;
    }

    /** One past the highest slot the operator has stored. */
    method NextSlotOf(operator: string) returns (slot: nat)
      ensures slot == NextSlot(tables, operator)
    {
      slot := 0;
      var left := tables.graphs.Keys;
      while left != {}
        invariant left <= tables.graphs.Keys
        invariant forall h | h in tables.graphs && h !in left && tables.graphs[h].operator == operator ::
                  tables.graphs[h].slot < slot
        invariant slot > 0 ==> slot - 1 in SlotsOf(tables, operator)
      {
        var h :| h in left;
        left := left - {h};
        if tables.graphs[h].operator == operator && tables.graphs[h].slot >= slot { slot := tables.graphs[h].slot + 1; }
      }
      OnePastIs(SlotsOf(tables, operator), slot);
    }

    method HasLiveBuild(jobs: map<string, JobRow>, g: string) returns (live: bool)
      ensures live == LiveBuild(jobs, g)
    {
      live := false;
      var left := jobs.Keys;
      while left != {} && !live
        invariant left <= jobs.Keys
        invariant !live ==> forall j | j in jobs && j !in left ::
                              !(jobs[j].aggregate == GraphRef(g) && jobs[j].action == JOB_BUILD_GRAPH
                                && !jobs[j].state.Terminal())
        invariant live ==> LiveBuild(jobs, g)
        decreases |left|
      {
        var j :| j in left;
        left := left - {j};
        live := jobs[j].aggregate == GraphRef(g) && jobs[j].action == JOB_BUILD_GRAPH && !jobs[j].state.Terminal();
      }
    }

    /** Another session of the operator with its build in flight, and the slot it takes. */
    method BuildingSibling(jobs: map<string, JobRow>, operator: string, g: string) returns (r: Option<(string, nat)>)
      ensures r.Some? <==> SiblingBuilding(tables, jobs, operator, g)
      ensures r.Some? ==> r.value.0 != g && Building(tables, jobs, r.value.0) && r.value.1 == NextSlot(tables, operator)
    {
      var left := tables.sessions.Keys;
      while left != {}
        invariant left <= tables.sessions.Keys
        invariant forall h | h in tables.sessions && h !in left ::
                    !(h != g && tables.sessions[h].operator == operator && Building(tables, jobs, h))
      {
        var h :| h in left;
        left := left - {h};
        if h != g && tables.sessions[h].operator == operator && h !in tables.graphs
           && tables.sessions[h].instance !in tables.failed {
          var live := HasLiveBuild(jobs, h);
          if live {
            var slot := NextSlotOf(operator);
            return Some((h, slot));
          }
        }
      }
      r := None;
    }

    method ReleaseSetupSession(g: string)
      requires g in tables.sessions
      modifies this
      ensures Draft() == ReleaseSession(old(Draft()), g)
    {
      var Session(instance, operator) := tables.sessions[g];
      effects := effects.(closes := effects.closes + [CloseAggregate(GraphRef(g))]);
      effects := effects.(cancels := effects.cancels + [CancelAggregate(GraphRef(g))]);
      tables := DropSession(tables, instance, operator);
      var slot := NextSlotOf(operator);
      effects := effects.(wakes := effects.wakes + [SlotRef(operator, slot)]);
    }

    method CloseSuperseded(rows: seq<string>)
      modifies this`effects
      ensures effects == old(effects).(closes := old(effects.closes) + RowCloses(rows))
    {
      for i := 0 to |rows|
        invariant effects == old(effects).(closes := old(effects.closes) + RowCloses(rows[..i]))
      {
        effects := effects.(closes := effects.closes + [CloseRow(rows[i])]);
        assert RowCloses(rows[..i + 1]) == RowCloses(rows[..i]) + [CloseRow(rows[i])];
      }
      assert rows[..|rows|] == rows;
    }

    /** Commit a job's plan: messages, row closes, follow-up jobs, session and wakes. */
    method CommitPlan(role: Role, input: Input, g: string, plan: GraphPlan)
      modifies this
      ensures Draft() == ApplyPlan(role, input, g, old(Draft()), plan)
    {
      state := Merged(state, plan.state);
      effects := effects.(outbox := effects.outbox + plan.messages);
      CloseSuperseded(plan.closeRows);
      EnqueueNext(role, input, g, plan.next);
      if plan.deleteSession && state.instance.Some? && state.operator.Some? {
        tables := DropSession(tables, state.instance.value, state.operator.value);
      }
      if plan.notifyEndorsed && state.instance.Some? {
        recorded := recorded + [role.endorsed(state.instance.value, g)];
      }
      effects := effects.(wakes := effects.wakes + plan.wakes);
    }

    /** Builds of one operator run one at a time: a planned build becomes an event. */
    method EnqueueNext(role: Role, input: Input, g: string, next: seq<NextJob>)
      modifies this`effects, this`recorded
      ensures effects == old(effects).(jobs := old(effects.jobs) + PlannedJobs(role, g, next, input.now))
      ensures recorded == old(recorded) + PlannedBuilds(g, next)
    {
      var jobs, builds := PlanFollowUps(role, g, next, input.now);
      effects := effects.(jobs := effects.jobs + jobs);
      recorded := recorded + builds;
    }

    method JobResult(role: Role, input: Input, g: string, r: JobResult) returns (outcome: Decision)
      modifies this
      ensures (outcome, Draft()) == ApplyJobResult(role, input, g, old(Draft()), r)
    {
      match r.outcome {
        case Done(bytes) =>
          var plan := role.plan(r.action, bytes);
          if plan.None? { return Reject; }
          CommitPlan(role, input, g, EffectivePlan(plan.value, StatusOf(tables, g), r.action));
        case Failed(_) =>
          if r.action == JOB_BUILD_GRAPH && state.operator.Some? {
            var slot := NextSlotOf(state.operator.value);
            effects := effects.(wakes := effects.wakes + [SlotRef(state.operator.value, slot)]);
          }
        case _ =>
      }
      cleared := cleared + [r.job];
      outcome := Handled;
    }

    method StartBuild(role: Role, input: Input, g: string) returns (outcome: Decision)
      modifies this
      ensures (outcome, Draft()) == ApplyBuildReady(role, input, g, old(Draft()))
    {
      if g in tables.graphs || g !in tables.sessions || tables.sessions[g].instance in tables.failed { return Handled; }
      var operator := tables.sessions[g].operator;
      var sibling := BuildingSibling(input.tables.jobs, operator, g);
      if sibling.Some? { return WaitFor(SlotRef(operator, sibling.value.1)); }
      EnqueueSetupJob(role, g, JOB_BUILD_GRAPH, []);
      outcome := Handled;
    }

    method Abandon(role: Role, g: string, instance: string) returns (outcome: Decision)
      modifies this
      ensures (outcome, Draft()) == AbandonSetup(role, g, old(Draft()), instance)
    {
      outcome := Handled;
      if !role.actor.Operator? || instance in tables.failed { return; }
      if g in tables.graphs {
        if role.localOperator != Some(tables.graphs[g].operator)
           || !tables.graphs[g].status.OperatorPresigned? { return; }
        tables := TransitionGraph(tables, g, Obsoleted);
        if g in tables.sessions { ReleaseSetupSession(g); }
      } else {
        if g !in tables.sessions { return; }
        ReleaseSetupSession(g);
      }
      state := state.(abandoned := true);
    }

    method EnqueueSetupJob(role: Role, g: string, action: string, params: Bytes)
      modifies this`effects
      ensures Draft() == EnqueueSetup(role, g, old(Draft()), action, params)
    {
      effects := effects.(jobs := effects.jobs + [Spec(role, g, JOB_PHASE, action, params, None)]);
    }

    /** Wait for a missing definition; only a registered author has it fetched. */
    method ParkOnDefinition(role: Role, input: Input, g: string, m: Inbound, lookup: Lookup, ref: string)
      returns (outcome: Decision)
      modifies this`effects
      ensures (outcome, Draft()) == ParkForDefinition(role, input, g, old(Draft()), m, lookup, ref)
    {
      if m.instance in tables.failed { return Handled; }
      var waited := input.now - input.row.createdAt;
      if waited > PARKED_MESSAGE_TTL_SECS { return Reject; }
      if role.registered(input.oracle, m.author) {
        EnqueueSetupJob(role, g, JOB_FETCH_GRAPH, role.encodeLookup(lookup));
      }
      outcome := WaitFor(ref);
    }

    method Adopt(m: Inbound)
      modifies this`state
      ensures Draft() == old(Draft()).(state := FillState(old(state), m))
    {
      if state.instance.None? { state := state.(instance := Some(m.instance)); }
      if state.operator.None? { state := state.(operator := m.operator); }
      if state.nonce.None? { state := state.(nonce := m.nonce); }
    }

    /** What an unfinished message comes to, or `None` when its job can run. */
    ghost predicate Ready(stop: Option<Decision>, role: Role, g: string, before: Draft, action: string, bytes: Bytes,
                          decided: (Decision, Draft))
      reads this
    {
      if stop.Some? then (stop.value, Draft()) == decided
      else Draft() == before && decided == (Handled, EnqueueSetup(role, g, before, action, bytes))
    }

    /** One definition per slot, and the previous slot's definition first. */
    method AwaitPreviousSlot(role: Role, input: Input, g: string, m: Inbound, ghost action: string, ghost bytes: Bytes)
      returns (stop: Option<Decision>)
      modifies this`effects
      ensures Ready(stop, role, g, old(Draft()), action, bytes,
                    ApplyCreateGraph(role, input, g, old(Draft()), m, action, bytes))
    {
      if !role.actor.Committee? || m.operator.None? || m.nonce.None? { return None; }
      var operator, slot := m.operator.value, m.nonce.value;
      if SlotTaken(tables, operator, slot, g) { return Some(Reject); }
      if slot == 0 || SlotStored(tables, operator, slot - 1) { return None; }
      var outcome := ParkOnDefinition(role, input, g, m, BySlot(operator, slot - 1), SlotRef(operator, slot - 1));
      stop := Some(outcome);
    }

    /** A round message needs the definition, and a round that is still open. */
    method AwaitRound(role: Role, input: Input, g: string, m: Inbound, ghost action: string, ghost bytes: Bytes)
      returns (stop: Option<Decision>)
      modifies this`effects
      ensures Ready(stop, role, g, old(Draft()), action, bytes,
                    ApplyRoundMessage(role, input, g, old(Draft()), m, action, bytes))
    {
      var status := StatusOf(tables, g);
      if status.None? {
        if role.actor.Operator? { return Some(Handled); }
        var outcome := ParkOnDefinition(role, input, g, m, ById(m.instance, g, false), GraphRef(g).WakeRef());
        return Some(outcome);
      }
      stop := if SigningRoundOver(status) then Some(Handled) else None;
    }

    /** What the kind of a message still needs; with nothing missing its job is enqueued. */
    method RoutedMessage(role: Role, input: Input, g: string, kind: EventKind, m: Inbound, action: string, bytes: Bytes)
      returns (outcome: Decision)
      modifies this`effects
      ensures (outcome, Draft()) == ApplyRouted(role, input, g, old(Draft()), kind, m, action, bytes)
    {
      var stop: Option<Decision> := None;
      match kind {
        case InitGraph =>
          if g in tables.graphs { return Handled; }
        case GenCircuits | SolderingProofReady =>
          if g !in tables.sessions || tables.sessions[g].instance != m.instance { return Handled; }
        case CreateGraph => stop := AwaitPreviousSlot(role, input, g, m, action, bytes);
        case VerifierGraphParamsEndorsement | NonceGeneration | AggNonceConsensus | CommitteePresign | EndorseGraph =>
          stop := AwaitRound(role, input, g, m, action, bytes);
        case GraphFinalize =>
          if state.finalized { return Handled; }
        case _ =>
      }
      if stop.Some? { return stop.value; }
      EnqueueSetupJob(role, g, action, bytes);
      outcome := Handled;
    }

    /** A network message: malformed and foreign ones are refused, own ones and those of a
        retired graph dropped, all others adopted and handed on by kind. */
    method Message(role: Role, input: Input, g: string, kind: EventKind, bytes: Bytes) returns (outcome: Decision)
      modifies this
      ensures (outcome, Draft()) == ApplyMessage(role, input, g, old(Draft()), kind, bytes)
    {
      var decoded := role.inbound(bytes);
      if decoded.None? { return Reject; }
      var m := decoded.value;
      if m.author == role.localPeer { return Handled; }
      var action := RouteAction(kind, role.actor);
      if action.None? { return Reject; }
      if role.actor.Committee? && !kind.GraphFinalize? && !role.holdsKey(input.oracle, m.instance) { return Handled; }
      if IsRetired(StatusOf(tables, g)) { return Handled; }
      Adopt(m);
      outcome := RoutedMessage(role, input, g, kind, m, action.value, bytes);
    }

    method Start(role: Role, input: Input, g: string, bytes: Bytes) returns (outcome: Decision)
      modifies this
      ensures (outcome, Draft()) == ApplyStart(role, input, g, old(Draft()), bytes)
    {
      var start := role.start(bytes);
      if start.None? { return Reject; }
      if !role.actor.Operator? { return Reject; }
      if g in tables.graphs || state.abandoned { return Handled; }
      if start.value.instance in tables.failed {
        tables := DropSession(tables, start.value.instance, start.value.operator);
        return Handled;
      }
      state := state.(instance := Some(start.value.instance), operator := Some(start.value.operator));
      EnqueueSetupJob(role, g, JOB_OPERATOR_INIT, bytes);
      outcome := Handled;
    }

    method TakePulled(role: Role, g: string, bytes: Bytes) returns (outcome: Decision)
      modifies this
      ensures (outcome, Draft()) == ApplyPulled(role, g, old(Draft()), bytes)
    {
      var pulled := role.pulled(bytes);
      if pulled.None? { return Reject; }
      if state.instance.None? { state := state.(instance := Some(pulled.value.instance)); }
      if role.relayer && pulled.value.finalized && !PastSigning(StatusOf(tables, g)) {
        effects := effects.(jobs := effects.jobs + [Spec(role, g, PHASE_POST, JOB_POST_GRAPH_DATA, [], None)]);
      }
      outcome := Handled;
    }

    method Pull(role: Role, g: string, bytes: Bytes) returns (outcome: Decision)
      modifies this
      ensures (outcome, Draft()) == ApplyPull(role, g, old(Draft()), bytes)
    {
      var lookup := role.pull(bytes);
      if lookup.None? { return Reject; }
      if g !in tables.graphs { EnqueueSetupJob(role, g, JOB_FETCH_GRAPH, role.encodeLookup(lookup.value)); }
      outcome := Handled;
    }

    method EnqueuePegout(role: Role, g: string, jobs: seq<PegoutJob>)
      modifies this`effects
      ensures effects == old(effects).(jobs := old(effects.jobs) + PegoutSpecs(role, g, jobs))
    {
      for i := 0 to |jobs|
        invariant effects == old(effects).(jobs := old(effects.jobs) + PegoutSpecs(role, g, jobs)[..i])
      {
        var phase := if jobs[i].kickoff then PHASE_KICKOFF else PHASE_SETTLEMENT;
        effects := effects.(jobs := effects.jobs + [Spec(role, g, phase, jobs[i].action, jobs[i].params, None)]);
      }
    }

    method CancelById(ids: seq<string>)
      modifies this`effects
      ensures effects == old(effects).(cancels := old(effects.cancels) + JobCancels(ids))
    {
      for i := 0 to |ids|
        invariant effects == old(effects).(cancels := old(effects.cancels) + JobCancels(ids)[..i])
      {
        effects := effects.(cancels := effects.cancels + [CancelJob(ids[i])]);
      }
    }

    /** The moves of a peg-out event, job by job and cancel by cancel. */
    method Pegout(role: Role, input: Input, g: string, kind: EventKind) returns (outcome: Decision)
      modifies this
      ensures (outcome, Draft()) == ApplyPegout(role, input, g, old(Draft()), kind)
    {
      var p := role.pegout(kind, input, state);
      state := p.state;
      EnqueuePegout(role, g, p.jobs);
      CancelById(p.cancels);
      if p.cancelKickoff { effects := effects.(cancels := effects.cancels + [CancelPhase(PHASE_KICKOFF)]); }
      assert effects == PegoutEffects(role, g, old(effects), p);
      if p.target.Some? { tables := TransitionGraph(tables, g, p.target.value); }
      outcome := p.outcome;
    }

    /** Committee round deliveries are over. */
    method CloseRound(g: string)
      modifies this`effects
      ensures effects == old(effects).(closes := old(effects.closes) + RoundCloses(g))
    {
      var phases := [PHASE_COLLECT, PHASE_SIGNING, PHASE_ENDORSE, PHASE_SETUP];
      for i := 0 to |phases|
        invariant effects == old(effects).(closes := old(effects.closes) + RoundCloses(g)[..i])
      {
        effects := effects.(closes := effects.closes + [ClosePhase(GraphRef(g), phases[i])]);
        assert RoundCloses(g)[..i + 1] == RoundCloses(g)[..i] + [RoundCloses(g)[i]];
      }
    }

    /** Mirror the stored status and close deliveries of completed or retired phases. */
    method Finish(role: Role, input: Input, g: string)
      modifies this`effects
      ensures Draft() == FinishDraft(role, input, g, old(Draft()))
    {
      var status := StatusOf(tables, g);
      if NameOf(status) != MirroredStatus(input.current) {
        if g in tables.graphs {
          effects := effects.(wakes := effects.wakes + [SlotRef(tables.graphs[g].operator, tables.graphs[g].slot)]);
        }
        if SigningRoundOver(status) { CloseRound(g); }
        if PastSigning(status) {
          effects := effects.(closes := effects.closes + [CloseAggregate(GraphRef(g))]);
          effects := effects.(cancels := effects.cancels + [CancelPhase(PHASE_POST)]);
        }
        if IsRetired(status) { effects := effects.(cancels := effects.cancels + [CancelPhase(JOB_PHASE)]); }
        if status.Some? && status.value.Closed() {
          effects := effects.(cancels := effects.cancels + [CancelPhase(PHASE_KICKOFF)]);
        }
      }
      effects := effects.(status := Some(NameOf(status)),
                          phase := Some(PhaseOf(status, role.actor, role.relayer, state.withdraw.Some?)),
                          state := Some(Some(role.saveState(state))));
    }

    /** Route one event to its handler. */
    method Route(role: Role, input: Input, g: string) returns (outcome: Decision)
      requires KindOf(input.row.kind).JobResultKind? ==> input.row.payload.Some? && input.row.payload.value.Result?
      modifies this
      ensures (outcome, Draft()) == Decide(role, input, g, old(Draft()))
    {
      var bytes := BytesOf(input.row.payload);
      var kind := KindOf(input.row.kind);
      match kind
      case JobResultKind => outcome := JobResult(role, input, g, input.row.payload.value.result);
      case BuildReady => outcome := StartBuild(role, input, g);
      case SetupAbandoned =>
        var instance := role.abandoned(bytes);
        if instance.None? { return Reject; }
        outcome := Abandon(role, g, instance.value);
      case OperatorStart => outcome := Start(role, input, g, bytes);
      case GraphPulled => outcome := TakePulled(role, g, bytes);
      case GraphPosted => outcome := Handled;
      case GoatStatus => outcome := Handled;
      case WithdrawInit | WithdrawCancel | ChainScan => outcome := Pegout(role, input, g, kind);
      case GraphPull => outcome := Pull(role, g, bytes);
      case _ => outcome := Message(role, input, g, kind, bytes);
    }
  }

  /** The follow-ups of a plan one by one: a build is an event, anything else a job. */
  method PlanFollowUps(role: Role, g: string, next: seq<NextJob>, now: int)
    returns (jobs: seq<JobSpec>, builds: seq<NewEvent>)
    ensures jobs == PlannedJobs(role, g, next, now) && builds == PlannedBuilds(g, next)
  {
    jobs, builds := [], [];
    for i := 0 to |next|
      invariant jobs == PlannedJobs(role, g, next[..i], now) && builds == PlannedBuilds(g, next[..i])
    {
      PlannedOneMore(role, g, next, i, now);
      if next[i].action == JOB_BUILD_GRAPH {
        builds := builds + [BuildReadyEvent(g)];
      } else {
        jobs := jobs + [PlannedJob(role, g, next[i], now)];
      }
    }
    assert next[..|next|] == next;
  }

  lemma PlannedOneMore(role: Role, g: string, next: seq<NextJob>, i: nat, now: int)
    requires i < |next|
    ensures PlannedJobs(role, g, next[..i + 1], now)
            == PlannedJobs(role, g, next[..i], now) + if next[i].action == JOB_BUILD_GRAPH then []
              else [PlannedJob(role, g, next[i], now)]
    ensures PlannedBuilds(g, next[..i + 1])
            == PlannedBuilds(g, next[..i]) + if next[i].action == JOB_BUILD_GRAPH then [BuildReadyEvent(g)] else []
  {
    assert next[..i + 1][..i] == next[..i];
  }

  /** The handler as the engine runs it: decide, then mirror unless the event is rejected. */
  method Apply(role: Role, input: Input) returns (reply: Reply<GraphTables>)
    ensures reply == GraphApply(role, input)
  {
    match role.interrupted(input.oracle) {
      case Some(StorageError) => return Transient;
      case Some(Elapsed) => return TimedOut;
      case Some(Panic) => return Panicked;
      case None =>
    }
    var g := input.row.aggregate.id;
    if !role.validId(g) { return InvariantBroken; }
    if KindOf(input.row.kind).JobResultKind? && !(input.row.payload.Some? && input.row.payload.value.Result?) {
      return InvariantBroken;
    }
    var ctx := new ApplyContext(input.business, LoadedState(role, input, g));
    var outcome := ctx.Route(role, input, g);
    if outcome.Reject? { return Refused; }
    ctx.Finish(role, input, g);
    reply := Decided(if outcome.WaitFor? then Park(outcome.ref) else Accept, ctx.effects, ctx.tables, ctx.recorded,
                     ctx.cleared);
  }
}
