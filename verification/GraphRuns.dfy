/** The Graph aggregate on the engine, over whole runs: builds of an operator are
    serialized, parked builds wait on the right slot, and retired graphs are stopped. */
module GraphRuns {
  import opened EngineTypes
  import opened EngineTables
  import opened EngineTransactions
  import opened EngineMachine
  import opened EngineOwnership
  import opened EngineDelivery
  import opened EngineFencing
  import opened GraphModel
  import opened GraphReplies

  // ---------------------------------------------------------------- the engine

  /** Definitions are kept as stored and failures are final. */
  ghost predicate Grows(b: GraphTables, after: GraphTables) {
    && b.failed <= after.failed && b.graphs.Keys <= after.graphs.Keys
    && forall h | h in b.graphs :: SameDefinition(b.graphs[h], after.graphs[h])
  }

  ghost predicate NoNewSession(b: GraphTables, after: GraphTables) {
    forall h | h in after.sessions :: h in b.sessions && after.sessions[h] == b.sessions[h]
  }

  /** A session opened by another aggregate starts with no build in flight. */
  ghost predicate NewSessionsIdle(b: GraphTables, after: GraphTables, jobs: map<string, JobRow>) {
    forall h | h in after.sessions :: (h in b.sessions && after.sessions[h] == b.sessions[h]) || !LiveBuild(jobs, h)
  }

  /** What the rest of the node may do to the graph tables. */
  ghost predicate OthersDocumented(c: Config<GraphTables>) {
    && (forall input: Input | input.row.aggregate.kind != GRAPH_KIND && c.handler(input).Decided? ::
          && Grows(input.business, c.handler(input).business)
          && NewSessionsIdle(input.business, c.handler(input).business, input.tables.jobs))
    && (forall b, after | c.mayWrite(b, after) :: Grows(b, after) && NoNewSession(b, after))
  }

  /** The engine with the Graph aggregate registered for its kind. */
  ghost predicate GraphEngine(c: Config<GraphTables>, role: Role) {
    && Documented(role) && OthersDocumented(c)
    && forall input: Input | input.row.aggregate.kind == GRAPH_KIND :: c.handler(input) == GraphApply(role, input)
  }

  ghost predicate TameEngine(c: Config<GraphTables>) {
    && OthersDocumented(c)
    && forall input: Input | input.row.aggregate.kind == GRAPH_KIND :: GraphReply(input, c.handler(input))
  }

  lemma EngineIsTame(c: Config<GraphTables>, role: Role)
    requires GraphEngine(c, role)
    ensures TameEngine(c)
  {
    forall input: Input | input.row.aggregate.kind == GRAPH_KIND ensures GraphReply(input, c.handler(input)) {
      ReplyTame(role, input);
    }
  }

  /** An engine with no other aggregate and no outside writer. */
  ghost function EngineFor(role: Role): Config<GraphTables> {
    Config(_ => true, (input: Input) => if input.row.aggregate.kind
           == GRAPH_KIND then GraphApply(role, input) else Refused,
           _ => 0, _ => 1, (b, after) => b == after)
  }

  /** The conditions on the engine can be met for every documented role. */
  lemma EngineExists(role: Role)
    requires Documented(role)
    ensures GraphEngine(EngineFor(role), role)
  {
  }

  type GraphSystem = System<GraphTables>
  type GraphStep = Step<GraphTables>

  /** The step commits an apply. */
  ghost predicate CommitsApply(c: Config<GraphTables>, s: GraphSystem, step: GraphStep)
    requires Enabled(c, s, step)
  {
    step.Work? && step.work.Apply? && c.handler(InputOf(s, step.worker, step.work.at, step.work.oracle)).Decided?
  }

  function StepInput(s: GraphSystem, step: GraphStep): Input
    requires step.Work? && step.work.Apply? && WorkerOf(s, step.worker).Loaded?
  {
    InputOf(s, step.worker, step.work.at, step.work.oracle)
  }

  /** Business rows change only by commits and documented writes. */
  lemma StepTables(c: Config<GraphTables>, s: GraphSystem, step: GraphStep)
    requires TameEngine(c) && Enabled(c, s, step)
    ensures Grows(s.business, Next(c, s, step).business)
    ensures CommitsApply(c, s, step) ==> Next(c, s, step).business == c.handler(StepInput(s, step)).business
    ensures !CommitsApply(c, s, step) ==> NoNewSession(s.business, Next(c, s, step).business)
  {
    if CommitsApply(c, s, step) { RepliesGrow(c, StepInput(s, step)); }
  }

  lemma RepliesGrow(c: Config<GraphTables>, input: Input)
    requires TameEngine(c) && c.handler(input).Decided?
    ensures Grows(input.business, c.handler(input).business)
  {
    if input.row.aggregate.kind == GRAPH_KIND { assert GraphReply(input, c.handler(input)); }
  }

  // -------------------------------------------------------------- serialization

  /** No two sessions of one operator are building at once. */
  ghost predicate OneBuildPerOperator(b: GraphTables, jobs: map<string, JobRow>) {
    forall g, h | Building(b, jobs, g) && Building(b, jobs, h) && b.sessions[g].operator == b.sessions[h].operator ::
        g == h
  }

  lemma MovesKeepBuilds(before: map<string, JobRow>, after: map<string, JobRow>, g: string)
    requires JobsMove(before, after) && after.Keys <= before.Keys && LiveBuild(after, g)
    ensures LiveBuild(before, g)
  {
    var j :| j in after && after[j].aggregate == GraphRef(g) && after[j].action == JOB_BUILD_GRAPH
        && !after[j].state.Terminal();
    assert RowMoves(before[j], after[j]);
  }

  /** A job row of the aggregate that one of the specs asked for. */
  predicate Asked(a: AggregateRef, js: seq<JobSpec>, row: JobRow) {
    row.aggregate == a && exists i | 0 <= i < |js| :: js[i].phase == row.phase && js[i].action == row.action
  }

  lemma {:induction false} InsertedAsAsked(jobs: map<string, JobRow>, a: AggregateRef, js: seq<JobSpec>, now: int,
                                           j: string)
    requires j in InsertJobs(jobs, a, js, now)
    ensures (j in jobs && InsertJobs(jobs, a, js, now)[j] == jobs[j])
            || (j !in jobs && Asked(a, js, InsertJobs(jobs, a, js, now)[j]))
  {
    if js != [] {
      var front, last := js[..|js| - 1], js[|js| - 1];
      var mid, row := InsertJobs(jobs, a, front, now), InsertJobs(jobs, a, js, now)[j];
      InsertJobsQuiet(jobs, a, front, now);
      if j !in mid {
        assert js[|js| - 1].phase == row.phase && js[|js| - 1].action == row.action;
      } else {
        InsertedAsAsked(jobs, a, front, now, j);
        assert row == mid[j];
        if j !in jobs {
          var i :| 0 <= i < |front| && front[i].phase == row.phase && front[i].action == row.action;
          assert js[i].phase == row.phase && js[i].action == row.action;
        }
      }
    }
  }

  lemma CommitBuilds(jobs: map<string, JobRow>, a: AggregateRef, cleared: seq<string>, js: seq<JobSpec>,
                     cancels: seq<JobCancel>, now: int, g: string)
    requires LiveBuild(CommitJobs(jobs, a, cleared, js, cancels, now), g)
    ensures LiveBuild(jobs, g) || (a == GraphRef(g) && exists i | 0 <= i < |js| :: js[i].action == JOB_BUILD_GRAPH)
  {
    var mid := ClearResults(jobs, cleared, now);
    var inserted := InsertJobs(mid, a, js, now);
    var after := CancelJobs(inserted, cancels, a, now);
    var j :| j in after && after[j].aggregate == GraphRef(g) && after[j].action == JOB_BUILD_GRAPH
        && !after[j].state.Terminal();
    assert inserted[j].aggregate == after[j].aggregate && inserted[j].action == after[j].action
           && !inserted[j].state.Terminal();
    InsertedAsAsked(mid, a, js, now, j);
    if j in mid {
      assert jobs[j].aggregate == GraphRef(g) && jobs[j].action == JOB_BUILD_GRAPH && !jobs[j].state.Terminal();
    }
  }

  lemma OtherBuilds(c: Config<GraphTables>, s: GraphSystem, step: GraphStep, g: string)
    requires Enabled(c, s, step) && !CommitsApply(c, s, step) && LiveBuild(Next(c, s, step).db.jobs, g)
    ensures LiveBuild(s.db.jobs, g)
  {
    StepMoves(c, s, step);
    JobsOnlyLeave(c, s, step);
    MovesKeepBuilds(s.db.jobs, Next(c, s, step).db.jobs, g);
  }

  /** Only a commit adds job rows. */
  lemma JobsOnlyLeave(c: Config<GraphTables>, s: GraphSystem, step: GraphStep)
    requires Enabled(c, s, step) && !CommitsApply(c, s, step)
    ensures Next(c, s, step).db.jobs.Keys <= s.db.jobs.Keys
  {
    match step
    case Exec(x) => ExecMoves(s.db, s.holders, x, c.poisonBackoff);
    case Submit(u) => SubmitPassive(s.db, s.submitters, u);
    case Runtime(r) => RuntimeJobsLeave(s.db, r);
    case Work(w, k) => WorkJobsStay(c, s, w, k);
    case _ =>
  }

  lemma RuntimeJobsLeave(db: Db, r: RuntimeStep)
    ensures RuntimeDb(db, r).jobs.Keys <= db.jobs.Keys
  {
  }

  lemma WorkJobsStay(c: Config<GraphTables>, s: GraphSystem, w: nat, k: WorkStep)
    requires WorkEnabled(c, s, w, k) && !(k.Apply? && c.handler(InputOf(s, w, k.at, k.oracle)).Decided?)
    ensures WorkNext(c, s, w, k).db.jobs == s.db.jobs
  {
  }

  /** A session that builds after a commit built before it, or its own event was just
      allowed to start. */
  lemma CommitBuilding(c: Config<GraphTables>, s: GraphSystem, step: GraphStep, g: string)
    requires TameEngine(c) && Enabled(c, s, step) && CommitsApply(c, s, step)
    requires Building(Next(c, s, step).business, Next(c, s, step).db.jobs, g)
    ensures || (Building(s.business, s.db.jobs, g) && s.business.sessions[g] == Next(c, s, step).business.sessions[g])
            || (StepInput(s, step).row.aggregate == GraphRef(g)
                && BuildAllowed(s.business, s.db.jobs, BuildReady, g)
                && s.business.sessions[g] == Next(c, s, step).business.sessions[g])
  {
    var input := StepInput(s, step);
    var reply := c.handler(input);
    StepTables(c, s, step);
    CommitReplyJobs(s.db, input, reply, step.work.recheckAt);
    CommitBuilds(s.db.jobs, input.row.aggregate, reply.cleared, reply.effects.jobs, reply.effects.cancels, input.now,
                 g);
    if input.row.aggregate.kind == GRAPH_KIND {
      assert GraphReply(input, reply);
    }
  }

  lemma OneBuildKept(c: Config<GraphTables>, s: GraphSystem, step: GraphStep)
    requires TameEngine(c) && Enabled(c, s, step) && OneBuildPerOperator(s.business, s.db.jobs)
    ensures OneBuildPerOperator(Next(c, s, step).business, Next(c, s, step).db.jobs)
  {
    var t := Next(c, s, step);
    forall g, h | Building(t.business, t.db.jobs, g) && Building(t.business, t.db.jobs, h)
                  && t.business.sessions[g].operator == t.business.sessions[h].operator
      ensures g == h
    {
      BuildingOrigin(c, s, step, g);
      BuildingOrigin(c, s, step, h);
    }
  }

  /** A session that builds after a step built before it, or it is the one that the step's
      own event was allowed to start. */
  lemma BuildingOrigin(c: Config<GraphTables>, s: GraphSystem, step: GraphStep, g: string)
    requires TameEngine(c) && Enabled(c, s, step)
    requires Building(Next(c, s, step).business, Next(c, s, step).db.jobs, g)
    ensures g in s.business.sessions && s.business.sessions[g] == Next(c, s, step).business.sessions[g]
    ensures || Building(s.business, s.db.jobs, g)
            || (CommitsApply(c, s, step) && StepInput(s, step).row.aggregate == GraphRef(g)
                && BuildAllowed(s.business, s.db.jobs, BuildReady, g))
  {
    if CommitsApply(c, s, step) {
      CommitBuilding(c, s, step, g);
    } else {
      StepTables(c, s, step);
      OtherBuilds(c, s, step, g);
    }
  }

  /** In every reachable state at most one session per operator is building, however
      starts, builds, failures, abandons and releases interleave. */
  lemma {:induction false} BuildsAreSerialized(c: Config<GraphTables>, role: Role, run: seq<GraphSystem>,
                                               steps: seq<GraphStep>, business: GraphTables, shards: nat, k: nat)
    requires GraphEngine(c, role) && IsRun(c, run, steps) && run[0] == Init(business, shards) && k < |run|
    ensures OneBuildPerOperator(run[k].business, run[k].db.jobs)
  {
    EngineIsTame(c, role);
    SerializedFrom(c, run, steps, k);
  }

  lemma {:induction false} SerializedFrom(c: Config<GraphTables>, run: seq<GraphSystem>, steps: seq<GraphStep>, k: nat)
    requires TameEngine(c) && IsRun(c, run, steps) && k < |run| && run[0].db == NO_ROWS
    ensures OneBuildPerOperator(run[k].business, run[k].db.jobs)
  {
    if k > 0 {
      SerializedFrom(c, run, steps, k - 1);
      var s, step := run[k - 1], steps[k - 1];
      assert Enabled(c, s, step) && run[k] == Next(c, s, step);
      OneBuildKept(c, s, step);
    }
  }

  // ------------------------------------------------------------ aggregate rows

  /** Only a commit writes an aggregate row, and only its own. */
  lemma StepAggregates(c: Config<GraphTables>, s: GraphSystem, step: GraphStep)
    requires Enabled(c, s, step)
    ensures !CommitsApply(c, s, step) ==> Next(c, s, step).db.aggregates == s.db.aggregates
    ensures CommitsApply(c, s, step) ==>
              var input := StepInput(s, step);
              Next(c, s, step).db.aggregates
              == s.db.aggregates[input.row.aggregate := UpsertAggregate(input.current, c.handler(input).effects,
                input.id)]
  {
    match step
    case Work(w, k) => WorkAggregates(c, s, w, k);
    case Exec(x) => ExecAggregates(s.db, s.holders, x, c.poisonBackoff);
    case Submit(u) => SubmitPassive(s.db, s.submitters, u);
    case Runtime(r) => RuntimeAggregates(s.db, r);
    case _ =>
  }

  lemma RuntimeAggregates(db: Db, r: RuntimeStep)
    ensures RuntimeDb(db, r).aggregates == db.aggregates
  {
  }

  lemma ExecAggregates(db: Db, holders: map<nat, Holder>, x: ExecStep, backoff: int -> int)
    requires ExecEnabled(db, holders, x)
    ensures ExecDb(db, holders, x, backoff).aggregates == db.aggregates
            && ExecDb(db, holders, x, backoff).outbox == db.outbox
  {
    match x
    case SweepCancelled(order, at) => InsertAllKeepsAggregates(db, SweepEvents(db.jobs, order), at);
    case RecordCompletion(h, at, _) =>
      var Holder(job, row, Some(f)) := holders[h];
      var outcome := FinishOutcomeOf(db.jobs, job, row.generation, f);
      var mid := ReportResult(db, job, row, outcome, f, at);
      assert mid.aggregates == db.aggregates && mid.outbox == db.outbox;
    case _ =>
  }

  lemma WorkAggregates(c: Config<GraphTables>, s: GraphSystem, w: nat, k: WorkStep)
    requires WorkEnabled(c, s, w, k)
    ensures !(k.Apply? && c.handler(InputOf(s, w, k.at, k.oracle)).Decided?) ==>
              WorkNext(c, s, w, k).db.aggregates == s.db.aggregates && WorkNext(c, s, w, k).db.outbox == s.db.outbox
    ensures k.Apply? && c.handler(InputOf(s, w, k.at, k.oracle)).Decided? ==>
              var input := InputOf(s, w, k.at, k.oracle);
              WorkNext(c, s, w, k).db.aggregates
              == s.db.aggregates[input.row.aggregate := UpsertAggregate(input.current, c.handler(input).effects,
                input.id)]
  {
    if k.Apply? {
      var input := InputOf(s, w, k.at, k.oracle);
      if c.handler(input).Decided? { InsertAllKeepsAggregates(s.db, c.handler(input).recorded, k.at); }
    }
  }
}
