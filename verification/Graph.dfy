/** The Graph aggregate (node/src/aggregates/graph.rs): what each event does to the setup
    sessions, the stored definitions and the effects of its apply. */
module GraphModel {
  import opened Common
  import opened EngineTypes
  import opened EngineMachine
  import opened GraphStatuses
  import opened Text

  // -------------------------------------------------------------- vocabulary

  const GRAPH_KIND := "graph"

  const PHASE_SETUP := "Setup"
  const PHASE_COLLECT := "Collect"
  const PHASE_SIGNING := "Signing"
  const PHASE_SIGNED := "Signed"
  const PHASE_DELIVER := "Deliver"
  const PHASE_POST := "Post"
  const PHASE_AWAIT_WITHDRAW := "AwaitWithdraw"
  const PHASE_CLOSED := "Closed"
  const PHASE_OBSOLETED := "Obsoleted"
  const PHASE_ENDORSE := "Endorse"
  const PHASE_KICKOFF := "Kickoff"
  const PHASE_SETTLEMENT := "Settlement"
  const JOB_PHASE := "graph"

  const JOB_OPERATOR_INIT := "operator_init_graph"
  const JOB_BUILD_GRAPH := "build_graph"
  const JOB_POST_GRAPH_DATA := "post_graph_data"
  const JOB_FETCH_GRAPH := "fetch_graph"

  const CPU_JOBS := {"verifier_setup", "verifier_solder", "ingest_soldering_proof", JOB_BUILD_GRAPH,
                     "verifier_validate_graph", "committee_ingest_graph", "committee_presign", "ingest_presign",
                     "finalize_graph", "ingest_finalized"}

  const PEGOUT_CPU_JOBS := {"watchtower_challenge", "commit_pubin", "prover_assert", "verifier_assert",
                            "wrongly_challenged"}

  const PEGOUT_JOBS := PEGOUT_CPU_JOBS + {"kickoff", "settle_predecessors", "enforce_previous_slot", "proceed_withdraw",
                       "challenge_kickoff", "watchtower_challenge_init", "watchtower_proof_timeout", "challenge_ack",
                       "watchtower_timeout", "challenge_nack", "commit_timeout", "disprove", "finish_disproved",
                       "take1", "finish_happy", "take2", "finish_unhappy"}

  const PARKED_MESSAGE_TTL_SECS := 2 * 24 * 60 * 60

  function PoolOf(action: string): Pool {
    if action in PEGOUT_JOBS then (if action in PEGOUT_CPU_JOBS then Pegout else NetworkPool)
    else if action in CPU_JOBS then Cpu else NetworkPool
  }

  function GraphRef(g: string): AggregateRef { AggregateRef(GRAPH_KIND, g) }

  /** Wake reference of an operator slot. */
  function SlotRef(operator: string, slot: nat): string { "slot:" + operator + ":" + Decimal(slot) }

  /** A slot reference names one operator and one slot. */
  lemma SlotRefInjective(a: string, i: nat, b: string, k: nat)
    requires SlotRef(a, i) == SlotRef(b, k)
    ensures a == b && i == k
  {
    LastPartInjective("slot:" + a, Decimal(i), "slot:" + b, Decimal(k));
    assert a == ("slot:" + a)[5..] && b == ("slot:" + b)[5..];
    DecimalInjective(i, k);
  }

  datatype Actor = Committee | Operator | Verifier | Watchtower | Publisher | All

  datatype EventKind =
    | JobResultKind | OperatorStart | GraphPulled | GraphPosted | GoatStatus | BuildReady | SetupAbandoned
    | WithdrawInit | WithdrawCancel | ChainScan | GraphPull
    | InitGraph | GenCircuits | CutCircuits | SolderingProofReady | CreateGraph | VerifierGraphParamsEndorsement
    | NonceGeneration | AggNonceConsensus | CommitteePresign | EndorseGraph | GraphFinalize | OtherKind

  function KindOf(kind: string): EventKind {
    if kind == JOB_RESULT_KIND then JobResultKind
    else if kind == "operator_start" then OperatorStart
    else if kind == "graph_pulled" then GraphPulled
    else if kind == "graph_posted" then GraphPosted
    else if kind == "goat_status" then GoatStatus
    else if kind == "build_ready" then BuildReady
    else if kind == "setup_abandoned" then SetupAbandoned
    else if kind == "withdraw_init" then WithdrawInit
    else if kind == "withdraw_cancel" then WithdrawCancel
    else if kind == "chain_scan" then ChainScan
    else if kind == "graph_pull" then GraphPull
    else if kind == "InitGraph" then InitGraph
    else if kind == "GenCircuits" then GenCircuits
    else if kind == "CutCircuits" then CutCircuits
    else if kind == "SolderingProofReady" then SolderingProofReady
    else if kind == "CreateGraph" then CreateGraph
    else if kind == "VerifierGraphParamsEndorsement" then VerifierGraphParamsEndorsement
    else if kind == "NonceGeneration" then NonceGeneration
    else if kind == "AggNonceConsensus" then AggNonceConsensus
    else if kind == "CommitteePresign" then CommitteePresign
    else if kind == "EndorseGraph" then EndorseGraph
    else if kind == "GraphFinalize" then GraphFinalize
    else OtherKind
  }

  /** The job that ingests a network message, by role. */
  function RouteAction(kind: EventKind, actor: Actor): (action: Option<string>)
    ensures action != Some(JOB_BUILD_GRAPH)
  {
    match kind
    case InitGraph => if actor.Verifier? then Some("verifier_setup") else None
    case GenCircuits => if actor.Operator? then Some("ingest_gen_circuits") else None
    case CutCircuits => if actor.Verifier? then Some("verifier_solder") else None
    case SolderingProofReady => if actor.Operator? then Some("ingest_soldering_proof") else None
    case CreateGraph =>
      if actor.Verifier? then Some("verifier_validate_graph")
      else if actor.Committee? then Some("committee_ingest_graph") else None
    case VerifierGraphParamsEndorsement => if actor.Committee? then Some("ingest_verifier_endorsement") else None
    case NonceGeneration => if actor.Committee? || actor.Operator? then Some("ingest_nonces") else None
    case AggNonceConsensus => if actor.Committee? then Some("ingest_vote") else None
    case CommitteePresign => if actor.Committee? || actor.Operator? then Some("ingest_presign") else None
    case EndorseGraph => if actor.Operator? then Some("ingest_endorsement") else None
    case GraphFinalize => Some("ingest_finalized")
    case _ => None
  }

  function PhaseOf(status: Option<GraphStatus>, actor: Actor, relayer: bool, withdrawing: bool): string {
    match status
    case None => PHASE_SETUP
    case Some(OperatorPresigned) =>
      if actor.Operator? then PHASE_COLLECT else if actor.Committee? then PHASE_SIGNING else PHASE_SETUP
    case Some(CommitteePresigned) =>
      if actor.Operator? then PHASE_DELIVER else if relayer then PHASE_POST else PHASE_SIGNED
    case Some(OperatorDataPushed) => if withdrawing then PHASE_KICKOFF else PHASE_AWAIT_WITHDRAW
    case Some(PreKickoff) => PHASE_KICKOFF
    case Some(OperatorKickOff) => PHASE_SETTLEMENT
    case Some(Challenge) => PHASE_SETTLEMENT
    case Some(Obsoleted) => PHASE_OBSOLETED
    case Some(_) => PHASE_CLOSED
  }

  predicate SigningRoundOver(status: Option<GraphStatus>) { status.Some? && !status.value.OperatorPresigned? }

  predicate PastSigning(status: Option<GraphStatus>) {
    status.Some? && !status.value.OperatorPresigned? && !status.value.CommitteePresigned?
  }

  predicate IsRetired(status: Option<GraphStatus>) { status.Some? && status.value.Retired() }

  // -------------------------------------------------------------------- tables

  datatype GraphRow = GraphRow(instance: string, operator: string, slot: nat, status: GraphStatus)
  datatype Session = Session(instance: string, operator: string)

  /** Stored definitions by graph, open setup sessions by graph, and failed instances. */
  datatype GraphTables = GraphTables(graphs: map<string, GraphRow>, sessions: map<string, Session>, failed: set<string>)

  /** One past the largest number of a set. */
  ghost function OnePast(s: set<nat>): (r: nat)
    ensures forall i | i in s :: i < r
    ensures s == {} <==> r == 0
    ensures r > 0 ==> r - 1 in s
  {
    if s == {} then 0
    else
      var x :| x in s;
      var rest := OnePast(s - {x});
      assert forall i | i in s :: i == x || i in s - {x};
      if x + 1 > rest then x + 1 else rest
  }

  lemma OnePastIs(s: set<nat>, r: nat)
    requires forall i | i in s :: i < r
    requires r > 0 ==> r - 1 in s
    ensures OnePast(s) == r
  {
    if OnePast(s) > 0 { assert OnePast(s) - 1 in s; }
  }

  function SlotsOf(b: GraphTables, operator: string): set<nat> {
    set g | g in b.graphs && b.graphs[g].operator == operator :: b.graphs[g].slot
  }

  /** Slots are handed out in ascending order; this one is free. */
  ghost function NextSlot(b: GraphTables, operator: string): nat { OnePast(SlotsOf(b, operator)) }

  function DropSession(b: GraphTables, instance: string, operator: string): GraphTables {
    b.(sessions := map g | g in b.sessions && b.sessions[g] != Session(instance, operator) :: b.sessions[g])
  }

  function StatusOf(b: GraphTables, g: string): Option<GraphStatus> {
    if g in b.graphs then Some(b.graphs[g].status) else None
  }

  /** The guarded status update of a stored graph. */
  function TransitionGraph(b: GraphTables, g: string, target: GraphStatus): GraphTables {
    if g in b.graphs
    then
      var moved := Moved(b.graphs[g].status, StatusWrite(target, ChainReconcile));
      b.(graphs := b.graphs[g := b.graphs[g].(status := moved)])
    else b
  }

  /** A `build_graph` job of the graph is pending or running. */
  predicate LiveBuild(jobs: map<string, JobRow>, g: string) {
    exists j | j in jobs ::
      jobs[j].aggregate == GraphRef(g) && jobs[j].action == JOB_BUILD_GRAPH && !jobs[j].state.Terminal()
  }

  /** The session is building: no definition yet, its instance alive, its build in flight. */
  predicate Building(b: GraphTables, jobs: map<string, JobRow>, g: string) {
    && g in b.sessions && g !in b.graphs && b.sessions[g].instance !in b.failed && LiveBuild(jobs, g)
  }

  predicate SiblingBuilding(b: GraphTables, jobs: map<string, JobRow>, operator: string, g: string) {
    exists h | h in b.sessions :: h != g && b.sessions[h].operator == operator && Building(b, jobs, h)
  }

  // ----------------------------------------------------------------- payloads

  datatype GraphState = GraphState(instance: Option<string>, operator: Option<string>, nonce: Option<nat>,
                                   finalized: bool, withdraw: Option<string>, retiredWithdraws: seq<string>,
                                   dead: bool, abandoned: bool)

  datatype Inbound = Inbound(instance: string, author: string, operator: Option<string>, nonce: Option<nat>)
  datatype Start = Start(instance: string, operator: string)
  datatype Pulled = Pulled(instance: string, finalized: bool)
  datatype NextJob = NextJob(action: string, params: Bytes, delaySecs: Option<int>)
  datatype StateUpdate = StateUpdate(instance: Option<string>, operator: Option<string>, nonce: Option<nat>,
                                     finalized: Option<bool>)
  datatype GraphPlan = GraphPlan(messages: seq<OutboxMessage>, closeRows: seq<string>, next: seq<NextJob>,
                                 state: StateUpdate, deleteSession: bool, notifyEndorsed: bool, wakes: seq<string>)
  datatype Lookup = ById(instance: string, graph: string, finalized: bool) | BySlot(operator: string, slot: nat)

  /** What the peg-out half of the aggregate does with its events: jobs of the Kickoff and
      Settlement phases, cancels, and one guarded status move. It sends no messages. */
  datatype PegoutJob = PegoutJob(kickoff: bool, action: string, params: Bytes)
  datatype PegoutMove = PegoutMove(outcome: Decision, jobs: seq<PegoutJob>, cancels: seq<string>, cancelKickoff: bool,
                           target: Option<GraphStatus>, state: GraphState)

  datatype Decision = Handled | WaitFor(ref: string) | Reject

  datatype Interruption = StorageError | Elapsed | Panic

  /** The node's role and its byte formats. `plan` is what a job of an action returns. */
  datatype Role = Role(
    actor: Actor, relayer: bool, localPeer: string, localOperator: Option<string>,
    registered: (nat, string) -> bool, holdsKey: (nat, string) -> bool, interrupted: nat -> Option<Interruption>,
    validId: string -> bool, loadState: Option<string> -> GraphState, saveState: GraphState -> string,
    inbound: Bytes -> Option<Inbound>, start: Bytes -> Option<Start>, pulled: Bytes -> Option<Pulled>,
    abandoned: Bytes -> Option<string>, pull: Bytes -> Option<Lookup>, plan: (string, Bytes) -> Option<GraphPlan>,
    encodeLookup: Lookup -> Bytes, jobId: (AggregateRef, string, string, Bytes) -> string,
    endorsed: (string, string) -> NewEvent, pegout: (EventKind, ApplyInput<GraphTables>, GraphState) -> PegoutMove)

  /** What an apply has decided so far. */
  datatype Draft = Draft(effects: Effects, tables: GraphTables, recorded: seq<NewEvent>, cleared: seq<string>,
                         state: GraphState)

  type Input = ApplyInput<GraphTables>

  // ------------------------------------------------------------------ effects

  function Spec(role: Role, g: string, phase: string, action: string, params: Bytes, runAfter: Option<int>): JobSpec {
    JobSpec(role.jobId(GraphRef(g), phase, action, params), phase, action, PoolOf(action), params, None, runAfter)
  }

  function Enqueue(d: Draft, j: JobSpec): Draft { d.(effects := d.effects.(jobs := d.effects.jobs + [j])) }

  function EnqueueSetup(role: Role, g: string, d: Draft, action: string, params: Bytes): Draft {
    Enqueue(d, Spec(role, g, JOB_PHASE, action, params, None))
  }

  function CloseRows(d: Draft, ts: seq<CloseTarget>): Draft {
    d.(effects := d.effects.(closes := d.effects.closes + ts))
  }

  function CancelAll(d: Draft, cs: seq<JobCancel>): Draft {
    d.(effects := d.effects.(cancels := d.effects.cancels + cs))
  }

  function WakeOn(d: Draft, refs: seq<string>): Draft { d.(effects := d.effects.(wakes := d.effects.wakes + refs)) }
  function Record(d: Draft, es: seq<NewEvent>): Draft { d.(recorded := d.recorded + es) }

  function BuildReadyEvent(g: string): NewEvent {
    NewEvent(Named("graph:" + g + ":build-ready"), GraphRef(g), "build_ready", EngineTypes.Source.Local, Raw([]), None)
  }

  // ----------------------------------------------------------------- messages

  function ParkForDefinition(role: Role, input: Input, g: string, d: Draft, m: Inbound, lookup: Lookup, ref: string)
    : (Decision, Draft)
  {
    if m.instance in d.tables.failed then (Handled, d)
    else if input.now - input.row.createdAt > PARKED_MESSAGE_TTL_SECS then (Reject, d)
    else if role.registered(input.oracle, m.author)
    then (WaitFor(ref), EnqueueSetup(role, g, d, JOB_FETCH_GRAPH, role.encodeLookup(lookup)))
    else (WaitFor(ref), d)
  }

  function FillState(st: GraphState, m: Inbound): GraphState {
    st.(instance := if st.instance.None? then Some(m.instance) else st.instance,
        operator := if st.operator.None? then m.operator else st.operator,
        nonce := if st.nonce.None? then m.nonce else st.nonce)
  }

  predicate SlotStored(b: GraphTables, operator: string, slot: nat) {
    exists h | h in b.graphs :: b.graphs[h].operator == operator && b.graphs[h].slot == slot
  }

  predicate SlotTaken(b: GraphTables, operator: string, slot: nat, g: string) {
    exists h | h in b.graphs :: h != g && b.graphs[h].operator == operator && b.graphs[h].slot == slot
  }

  function ApplyMessage(role: Role, input: Input, g: string, d: Draft, kind: EventKind, bytes: Bytes)
    : (Decision, Draft)
  {
    var status := StatusOf(d.tables, g);
    var decoded, action := role.inbound(bytes), RouteAction(kind, role.actor);
    if decoded.None? then (Reject, d)
    else if decoded.value.author == role.localPeer then (Handled, d)
    else if action.None? then (Reject, d)
    else if role.actor.Committee? && !kind.GraphFinalize? && !role.holdsKey(input.oracle, decoded.value.instance)
    then (Handled, d)
    else if IsRetired(status) then (Handled, d)
    else
      var d1 := d.(state := FillState(d.state, decoded.value));
      ApplyRouted(role, input, g, d1, kind, decoded.value, action.value, bytes)
  }

  /** A message that is for this node, by what its kind needs. */
  function ApplyRouted(role: Role, input: Input, g: string, d: Draft, kind: EventKind, m: Inbound, action: string,
                       bytes: Bytes)
    : (Decision, Draft)
  {
    match kind
    case InitGraph => if g in d.tables.graphs then (Handled, d) else (Handled, EnqueueSetup(role, g, d, action, bytes))
    case GenCircuits => ApplySessionMessage(role, g, d, m, action, bytes)
    case SolderingProofReady => ApplySessionMessage(role, g, d, m, action, bytes)
    case CreateGraph => ApplyCreateGraph(role, input, g, d, m, action, bytes)
    case VerifierGraphParamsEndorsement => ApplyRoundMessage(role, input, g, d, m, action, bytes)
    case NonceGeneration => ApplyRoundMessage(role, input, g, d, m, action, bytes)
    case AggNonceConsensus => ApplyRoundMessage(role, input, g, d, m, action, bytes)
    case CommitteePresign => ApplyRoundMessage(role, input, g, d, m, action, bytes)
    case EndorseGraph => ApplyRoundMessage(role, input, g, d, m, action, bytes)
    case GraphFinalize => if d.state.finalized then (Handled, d) else (Handled, EnqueueSetup(role, g, d, action, bytes))
    case _ => (Handled, EnqueueSetup(role, g, d, action, bytes))
  }

  function ApplySessionMessage(role: Role, g: string, d: Draft, m: Inbound, action: string, bytes: Bytes)
    : (Decision, Draft)
  {
    if g !in d.tables.sessions || d.tables.sessions[g].instance != m.instance then (Handled, d)
    else (Handled, EnqueueSetup(role, g, d, action, bytes))
  }

  /** One definition per slot, and the previous slot's definition first. */
  function ApplyCreateGraph(role: Role, input: Input, g: string, d: Draft, m: Inbound, action: string, bytes: Bytes)
    : (Decision, Draft)
  {
    var known := role.actor.Committee? && m.operator.Some? && m.nonce.Some?;
    if known && SlotTaken(d.tables, m.operator.value, m.nonce.value, g) then (Reject, d)
    else if known && m.nonce.value > 0 && !SlotStored(d.tables, m.operator.value, m.nonce.value - 1)
    then ParkForDefinition(role, input, g, d, m, BySlot(m.operator.value, m.nonce.value - 1),
                           SlotRef(m.operator.value, m.nonce.value - 1))
    else (Handled, EnqueueSetup(role, g, d, action, bytes))
  }

  function ApplyRoundMessage(role: Role, input: Input, g: string, d: Draft, m: Inbound, action: string, bytes: Bytes)
    : (Decision, Draft)
  {
    var status := StatusOf(d.tables, g);
    if status.None? && role.actor.Operator? then (Handled, d)
    else if status.None?
    then ParkForDefinition(role, input, g, d, m, ById(m.instance, g, false), GraphRef(g).WakeRef())
    else if SigningRoundOver(status) then (Handled, d)
    else (Handled, EnqueueSetup(role, g, d, action, bytes))
  }

  // -------------------------------------------------------------- job results

  function Merged(st: GraphState, u: StateUpdate): GraphState {
    st.(instance := if u.instance.Some? then u.instance else st.instance,
        operator := if u.operator.Some? then u.operator else st.operator,
        nonce := if u.nonce.Some? then u.nonce else st.nonce,
        finalized := if u.finalized.Some? then u.finalized.value else st.finalized)
  }

  function PlannedJob(role: Role, g: string, n: NextJob, now: int): JobSpec {
    var phase := if n.action == JOB_POST_GRAPH_DATA then PHASE_POST
                 else if n.action in PEGOUT_JOBS then PHASE_SETTLEMENT else JOB_PHASE;
    var delay := if n.delaySecs.Some? then Some(now + (if n.delaySecs.value > 0 then n.delaySecs.value else 0))
        else None;
    Spec(role, g, phase, n.action, n.params, delay)
  }

  /** The follow-up jobs of a plan; a build is asked for by event instead. */
  function PlannedJobs(role: Role, g: string, next: seq<NextJob>, now: int): seq<JobSpec> {
    if next == [] then []
    else
      var n := next[|next| - 1];
      PlannedJobs(role, g, next[..|next| - 1], now) + if n.action == JOB_BUILD_GRAPH then []
        else [PlannedJob(role, g, n, now)]
  }

  function PlannedBuilds(g: string, next: seq<NextJob>): seq<NewEvent> {
    if next == [] then []
    else PlannedBuilds(g, next[..|next| - 1]) + if next[|next| - 1].action == JOB_BUILD_GRAPH then [BuildReadyEvent(g)]
        else []
  }

  function RowCloses(rows: seq<string>): seq<CloseTarget> {
    seq(|rows|, i requires 0 <= i < |rows| => CloseRow(rows[i]))
  }

  function ApplyPlan(role: Role, input: Input, g: string, d: Draft, plan: GraphPlan): Draft {
    var st := Merged(d.state, plan.state);
    var d1 := d.(state := st, effects := d.effects.(outbox := d.effects.outbox + plan.messages));
    var d2 := CloseRows(d1, RowCloses(plan.closeRows));
    var d3 := Record(d2.(effects := d2.effects.(jobs := d2.effects.jobs + PlannedJobs(role, g, plan.next, input.now))),
                     PlannedBuilds(g, plan.next));
    var d4 := if plan.deleteSession && st.instance.Some? && st.operator.Some?
              then d3.(tables := DropSession(d3.tables, st.instance.value, st.operator.value)) else d3;
    var d5 := if plan.notifyEndorsed && st.instance.Some? then Record(d4, [role.endorsed(st.instance.value, g)])
        else d4;
    WakeOn(d5, plan.wakes)
  }

  const NO_UPDATE := StateUpdate(None, None, None, None)

  /** A retired graph keeps only the wakes of a late setup or post plan. */
  function EffectivePlan(plan: GraphPlan, status: Option<GraphStatus>, action: string): GraphPlan {
    if IsRetired(status) && action !in PEGOUT_JOBS then GraphPlan([], [], [], NO_UPDATE, false, false, plan.wakes)
       else plan
  }

  ghost function ApplyJobResult(role: Role, input: Input, g: string, d: Draft, r: JobResult): (Decision, Draft) {
    match r.outcome
    case Done(bytes) =>
      var plan := role.plan(r.action, bytes);
      if plan.None? then (Reject, d)
      else
        var d1 := ApplyPlan(role, input, g, d, EffectivePlan(plan.value, StatusOf(d.tables, g), r.action));
        (Handled, d1.(cleared := d1.cleared + [r.job]))
    case Failed(_) =>
      var d1 := if r.action == JOB_BUILD_GRAPH && d.state.operator.Some?
                then WakeOn(d, [SlotRef(d.state.operator.value, NextSlot(d.tables, d.state.operator.value))]) else d;
      (Handled, d1.(cleared := d1.cleared + [r.job]))
    case _ => (Handled, d.(cleared := d.cleared + [r.job]))
  }

  // ------------------------------------------------------------ builds and setup

  ghost function ApplyBuildReady(role: Role, input: Input, g: string, d: Draft): (Decision, Draft) {
    if g in d.tables.graphs || g !in d.tables.sessions || d.tables.sessions[g].instance in d.tables.failed
    then (Handled, d)
    else
      var operator := d.tables.sessions[g].operator;
      if SiblingBuilding(d.tables, input.tables.jobs, operator, g)
      then (WaitFor(SlotRef(operator, NextSlot(d.tables, operator))), d)
      else (Handled, EnqueueSetup(role, g, d, JOB_BUILD_GRAPH, []))
  }

  /** Close a session that never stored its definition and wake the slot it was taking. */
  ghost function ReleaseSession(d: Draft, g: string): Draft
    requires g in d.tables.sessions
  {
    var Session(instance, operator) := d.tables.sessions[g];
    var d1 := CancelAll(CloseRows(d, [CloseAggregate(GraphRef(g))]), [CancelAggregate(GraphRef(g))]);
    var d2 := d1.(tables := DropSession(d1.tables, instance, operator));
    WakeOn(d2, [SlotRef(operator, NextSlot(d2.tables, operator))])
  }

  ghost function AbandonSetup(role: Role, g: string, d: Draft, instance: string): (Decision, Draft) {
    if !role.actor.Operator? || instance in d.tables.failed then (Handled, d)
    else if g in d.tables.graphs then
      var row := d.tables.graphs[g];
      if role.localOperator != Some(row.operator) || !row.status.OperatorPresigned? then (Handled, d)
      else
        var d1 := d.(tables := TransitionGraph(d.tables, g, Obsoleted));
        var d2 := if g in d1.tables.sessions then ReleaseSession(d1, g) else d1;
        (Handled, d2.(state := d2.state.(abandoned := true)))
    else if g !in d.tables.sessions then (Handled, d)
    else
      var d1 := ReleaseSession(d, g);
      (Handled, d1.(state := d1.state.(abandoned := true)))
  }

  function ApplyStart(role: Role, input: Input, g: string, d: Draft, bytes: Bytes): (Decision, Draft) {
    var start := role.start(bytes);
    if start.None? || !role.actor.Operator? then (Reject, d)
    else if g in d.tables.graphs || d.state.abandoned then (Handled, d)
    else if start.value.instance in d.tables.failed
    then (Handled, d.(tables := DropSession(d.tables, start.value.instance, start.value.operator)))
    else
      var st := d.state.(instance := Some(start.value.instance), operator := Some(start.value.operator));
      (Handled, EnqueueSetup(role, g, d.(state := st), JOB_OPERATOR_INIT, bytes))
  }

  function ApplyPulled(role: Role, g: string, d: Draft, bytes: Bytes): (Decision, Draft) {
    var pulled := role.pulled(bytes);
    if pulled.None? then (Reject, d)
    else
      var d1 := if d.state.instance.None? then d.(state := d.state.(instance := Some(pulled.value.instance))) else d;
      if role.relayer && pulled.value.finalized && !PastSigning(StatusOf(d.tables, g))
      then (Handled, Enqueue(d1, Spec(role, g, PHASE_POST, JOB_POST_GRAPH_DATA, [], None)))
      else (Handled, d1)
  }

  function ApplyPull(role: Role, g: string, d: Draft, bytes: Bytes): (Decision, Draft) {
    var lookup := role.pull(bytes);
    if lookup.None? then (Reject, d)
    else if g in d.tables.graphs then (Handled, d)
    else (Handled, EnqueueSetup(role, g, d, JOB_FETCH_GRAPH, role.encodeLookup(lookup.value)))
  }

  function PegoutSpecs(role: Role, g: string, jobs: seq<PegoutJob>): seq<JobSpec> {
    seq(|jobs|, i requires 0 <= i < |jobs| =>
      Spec(role, g, if jobs[i].kickoff then PHASE_KICKOFF else PHASE_SETTLEMENT, jobs[i].action, jobs[i].params, None))
  }

  function JobCancels(ids: seq<string>): seq<JobCancel> {
    seq(|ids|, i requires 0 <= i < |ids| => CancelJob(ids[i]))
  }

  function PegoutEffects(role: Role, g: string, e: Effects, p: PegoutMove): Effects {
    e.(jobs := e.jobs + PegoutSpecs(role, g, p.jobs),
       cancels := e.cancels + JobCancels(p.cancels) + if p.cancelKickoff then [CancelPhase(PHASE_KICKOFF)] else [])
  }

  function ApplyPegout(role: Role, input: Input, g: string, d: Draft, kind: EventKind): (Decision, Draft) {
    var p := role.pegout(kind, input, d.state);
    var d1 := d.(state := p.state, effects := PegoutEffects(role, g, d.effects, p));
    (p.outcome, if p.target.Some? then d1.(tables := TransitionGraph(d1.tables, g, p.target.value)) else d1)
  }

  // ------------------------------------------------------------------- finish

  function MirroredStatus(current: Option<AggregateRow>): string { if current.Some? then current.value.status else "" }

  function NameOf(status: Option<GraphStatus>): string { if status.Some? then status.value.Name() else "" }

  function RoundCloses(g: string): seq<CloseTarget> {
    [ClosePhase(GraphRef(g), PHASE_COLLECT), ClosePhase(GraphRef(g), PHASE_SIGNING),
     ClosePhase(GraphRef(g), PHASE_ENDORSE), ClosePhase(GraphRef(g), PHASE_SETUP)]
  }

  /** What a changed status closes, cancels and wakes. */
  function OnChange(g: string, d: Draft): Draft {
    var status := StatusOf(d.tables, g);
    var d1 := if g in d.tables.graphs then WakeOn(d, [SlotRef(d.tables.graphs[g].operator, d.tables.graphs[g].slot)])
        else d;
    var d2 := if SigningRoundOver(status) then CloseRows(d1, RoundCloses(g)) else d1;
    var d3 := if PastSigning(status)
              then CancelAll(CloseRows(d2, [CloseAggregate(GraphRef(g))]), [CancelPhase(PHASE_POST)]) else d2;
    var d4 := if IsRetired(status) then CancelAll(d3, [CancelPhase(JOB_PHASE)]) else d3;
    if status.Some? && status.value.Closed() then CancelAll(d4, [CancelPhase(PHASE_KICKOFF)]) else d4
  }

  /** Mirror the stored status and close deliveries of completed or retired phases. */
  function FinishDraft(role: Role, input: Input, g: string, d: Draft): Draft {
    var status := StatusOf(d.tables, g);
    var d1 := if NameOf(status) != MirroredStatus(input.current) then OnChange(g, d) else d;
    d1.(effects := d1.effects.(status := Some(NameOf(status)),
                               phase := Some(PhaseOf(status, role.actor, role.relayer, d.state.withdraw.Some?)),
                               state := Some(Some(role.saveState(d.state)))))
  }

  // -------------------------------------------------------------------- apply

  function BytesOf(p: Option<Payload>): Bytes { if p.Some? && p.value.Raw? then p.value.bytes else [] }

  function LoadedState(role: Role, input: Input, g: string): GraphState {
    var st := role.loadState(if input.current.Some? then input.current.value.state else None);
    if st.instance.None? && g in input.business.graphs then
      var row := input.business.graphs[g];
      st.(instance := Some(row.instance), operator := Some(row.operator), nonce := Some(row.slot))
    else st
  }

  function Opened(role: Role, input: Input): Draft {
    Draft(NO_EFFECTS, input.business, [], [], LoadedState(role, input, input.row.aggregate.id))
  }

  ghost function Decide(role: Role, input: Input, g: string, d: Draft): (Decision, Draft)
    requires KindOf(input.row.kind).JobResultKind? ==> input.row.payload.Some? && input.row.payload.value.Result?
  {
    var bytes := BytesOf(input.row.payload);
    var kind := KindOf(input.row.kind);
    match kind
    case JobResultKind => ApplyJobResult(role, input, g, d, input.row.payload.value.result)
    case OperatorStart => ApplyStart(role, input, g, d, bytes)
    case GraphPulled => ApplyPulled(role, g, d, bytes)
    case GraphPosted => (Handled, d)
    case GoatStatus => (Handled, d)
    case BuildReady => ApplyBuildReady(role, input, g, d)
    case SetupAbandoned =>
      var instance := role.abandoned(bytes);
      if instance.None? then (Reject, d) else AbandonSetup(role, g, d, instance.value)
    case WithdrawInit => ApplyPegout(role, input, g, d, kind)
    case WithdrawCancel => ApplyPegout(role, input, g, d, kind)
    case ChainScan => ApplyPegout(role, input, g, d, kind)
    case GraphPull => ApplyPull(role, g, d, bytes)
    case _ => ApplyMessage(role, input, g, d, kind, bytes)
  }

  /** The handler of graph events, as the engine calls it. */
  ghost function GraphApply(role: Role, input: Input): Reply<GraphTables> {
    var stop := role.interrupted(input.oracle);
    if stop == Some(StorageError) then Transient
    else if stop == Some(Elapsed) then TimedOut
    else if stop == Some(Panic) then Panicked
    else if !role.validId(input.row.aggregate.id) then InvariantBroken
    else if KindOf(input.row.kind).JobResultKind? && !(input.row.payload.Some? && input.row.payload.value.Result?)
    then InvariantBroken
    else
      var g := input.row.aggregate.id;
      var (outcome, d) := Decide(role, input, g, Opened(role, input));
      if outcome.Reject? then Refused
      else
        var done := FinishDraft(role, input, g, d);
        Decided(if outcome.WaitFor? then Park(outcome.ref) else Accept, done.effects, done.tables, done.recorded,
                done.cleared)
  }
}
