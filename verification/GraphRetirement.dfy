/** Retired graphs are stopped: no open delivery, no pending setup or post job, and every
    running one asked to cancel, in every reachable state. */
module GraphRetirement {
  import opened Common
  import opened EngineTypes
  import opened EngineTables
  import opened EngineTransactions
  import opened EngineMachine
  import opened EngineOwnership
  import opened EngineDelivery
  import opened EngineFencing
  import opened GraphStatuses
  import opened GraphModel
  import opened GraphReplies
  import opened GraphRuns
  import opened GraphParks

  ghost predicate RetiredName(name: string) { exists st: GraphStatus :: st.Retired() && st.Name() == name }

  lemma RetiredNameOf(status: Option<GraphStatus>)
    ensures RetiredName(NameOf(status)) <==> IsRetired(status)
  {
    if st: GraphStatus :| st.Retired() && st.Name() == NameOf(status) {
      NamesDiffer(st, st);
      if status.Some? { NamesDiffer(st, status.value); }
    }
  }

  /** Neither pending nor running without a cancel request. */
  predicate Stopped(row: JobRow) { !row.state.Pending? && (row.state.Running? ==> row.cancelRequested) }

  predicate SetupJob(row: JobRow, g: string) { row.aggregate == GraphRef(g) && SetupPhase(row.phase) }

  ghost predicate SetupStopped(jobs: map<string, JobRow>, g: string) {
    forall j | j in jobs && SetupJob(jobs[j], g) :: Stopped(jobs[j])
  }

  ghost predicate DeliveriesClosed(outbox: map<string, OutboxRow>, g: string) {
    forall m | m in outbox && outbox[m].aggregate == GraphRef(g) :: outbox[m].state.Closed?
  }

  ghost predicate RetiredStopped(db: Db) {
    forall g | RetiredName(MirroredName(db.aggregates, g)) :: DeliveriesClosed(db.outbox, g) && SetupStopped(db.jobs, g)
  }

  // --------------------------------------------------------------- rows stay stopped

  ghost predicate StaysStopped(before: map<string, JobRow>, after: map<string, JobRow>) {
    forall j | j in after :: j in before && SameJob(before[j], after[j]) && (Stopped(before[j]) ==> Stopped(after[j]))
  }

  ghost predicate StaysClosed(before: map<string, OutboxRow>, after: map<string, OutboxRow>) {
    forall m | m in after ::
      m in before && after[m].aggregate == before[m].aggregate && (before[m].state.Closed? ==> after[m].state.Closed?)
  }

  lemma ExecStops(db: Db, holders: map<nat, Holder>, x: ExecStep, backoff: int -> int)
    requires ExecEnabled(db, holders, x)
    ensures StaysStopped(db.jobs, ExecDb(db, holders, x, backoff).jobs)
  {
    match x
    case RecordCompletion(h, at, _) =>
      RecordJobs(db, holders[h].job, holders[h].row, holders[h].finish.value, at, backoff);
    case SweepCancelled(order, at) => assert Sweep(db, order, at).jobs == SweepJobs(db.jobs, at);
    case _ =>
  }

  lemma RuntimeStops(db: Db, r: RuntimeStep)
    ensures StaysStopped(db.jobs, RuntimeDb(db, r).jobs) && StaysClosed(db.outbox, RuntimeDb(db, r).outbox)
  {
  }

  lemma PublishStops(outbox: map<string, OutboxRow>, p: PublishStep)
    requires PublishEnabled(outbox, p)
    ensures StaysClosed(outbox, PublishNext(outbox, p))
  {
  }

  /** Steps other than commits leave stopped work stopped. */
  lemma OtherStops(c: Config<GraphTables>, s: GraphSystem, step: GraphStep)
    requires Enabled(c, s, step) && !CommitsApply(c, s, step)
    ensures StaysStopped(s.db.jobs, Next(c, s, step).db.jobs) && StaysClosed(s.db.outbox, Next(c, s, step).db.outbox)
  {
    match step
    case Submit(u) => SubmitPassive(s.db, s.submitters, u);
    case Runtime(r) => RuntimeStops(s.db, r);
    case Work(w, k) =>
      WorkJobsStay(c, s, w, k);
      WorkAggregates(c, s, w, k);
    case Exec(x) =>
      ExecStops(s.db, s.holders, x, c.poisonBackoff);
      ExecAggregates(s.db, s.holders, x, c.poisonBackoff);
    case Publish(p) => PublishStops(s.db.outbox, p);
    case _ =>
  }

  // ------------------------------------------------------------------- commits

  lemma {:induction false} InsertedMessages(outbox: map<string, OutboxRow>, a: AggregateRef, ms: seq<OutboxMessage>,
                                            now: int)
    ensures forall m | m in InsertMessages(outbox, a, ms, now) ::
              (m in outbox && InsertMessages(outbox, a, ms, now)[m] == outbox[m])
                || InsertMessages(outbox, a, ms, now)[m].aggregate == a
  {
    if ms != [] { InsertedMessages(outbox, a, ms[..|ms| - 1], now); }
  }

  function CommitOutbox(outbox: map<string, OutboxRow>, a: AggregateRef, e: Effects, now: int): map<string, OutboxRow> {
    CloseMessages(InsertMessages(outbox, a, e.outbox, now), e.closes, now)
  }

  lemma CommitKeepsClosed(outbox: map<string, OutboxRow>, a: AggregateRef, e: Effects, now: int, g: string)
    requires DeliveriesClosed(outbox, g) && (a != GraphRef(g) || e.outbox == [])
    ensures DeliveriesClosed(CommitOutbox(outbox, a, e, now), g)
  {
    InsertedMessages(outbox, a, e.outbox, now);
  }

  /** Closes come after sends, so a close of the aggregate leaves nothing open. */
  lemma CommitCloses(outbox: map<string, OutboxRow>, a: AggregateRef, e: Effects, now: int, g: string)
    requires CloseAggregate(GraphRef(g)) in e.closes
    ensures DeliveriesClosed(CommitOutbox(outbox, a, e, now), g)
  {
    var sent := InsertMessages(outbox, a, e.outbox, now);
    forall m | m in sent && sent[m].aggregate == GraphRef(g)
        ensures CloseMessages(sent, e.closes, now)[m].state.Closed? {
      var i :| 0 <= i < |e.closes| && e.closes[i] == CloseAggregate(GraphRef(g));
      assert ClosesRow(e.closes[i], m, sent[m]);
    }
  }

  lemma CommitKeepsStopped(jobs: map<string, JobRow>, a: AggregateRef, cleared: seq<string>, js: seq<JobSpec>,
                           cancels: seq<JobCancel>, now: int, g: string)
    requires SetupStopped(jobs, g) && (a != GraphRef(g) || forall i | 0 <= i < |js| :: !SetupPhase(js[i].phase))
    ensures SetupStopped(CommitJobs(jobs, a, cleared, js, cancels, now), g)
  {
    var mid := ClearResults(jobs, cleared, now);
    var inserted := InsertJobs(mid, a, js, now);
    forall j | j in inserted && SetupJob(inserted[j], g) ensures Stopped(inserted[j]) {
      InsertedAsAsked(mid, a, js, now, j);
    }
  }

  /** Cancels come after enqueues, so cancelling both phases leaves nothing to run. */
  lemma CommitStops(jobs: map<string, JobRow>, cleared: seq<string>, js: seq<JobSpec>, cancels: seq<JobCancel>,
                    now: int, g: string)
    requires CancelPhase(PHASE_POST) in cancels && CancelPhase(JOB_PHASE) in cancels
    ensures SetupStopped(CommitJobs(jobs, GraphRef(g), cleared, js, cancels, now), g)
  {
    var queued := InsertJobs(ClearResults(jobs, cleared, now), GraphRef(g), js, now);
    forall j | j in queued && SetupJob(queued[j], g) ensures Stopped(CancelJobs(queued, cancels, GraphRef(g), now)[j]) {
      var i :| 0 <= i < |cancels| && cancels[i] == CancelPhase(queued[j].phase);
      assert CancelsRow(cancels[i], GraphRef(g), j, queued[j]);
    }
  }

  lemma CommitTables(c: Config<GraphTables>, s: GraphSystem, step: GraphStep)
    requires Enabled(c, s, step) && CommitsApply(c, s, step)
    ensures var input := StepInput(s, step);
            var reply := c.handler(input);
            && Next(c, s, step).db.outbox == CommitOutbox(s.db.outbox, input.row.aggregate, reply.effects, input.now)
            && Next(c, s, step).db.jobs == CommitJobs(s.db.jobs, input.row.aggregate, reply.cleared, reply.effects.jobs,
                                                      reply.effects.cancels, input.now)
  {
    var input := StepInput(s, step);
    CommitReplyJobs(s.db, input, c.handler(input), step.work.recheckAt);
    InsertAllKeepsAggregates(s.db, c.handler(input).recorded, input.now);
  }

  /** The commit of the graph's own event. */
  lemma OwnCommitStops(c: Config<GraphTables>, s: GraphSystem, step: GraphStep, g: string)
    requires TameEngine(c) && Enabled(c, s, step) && CommitsApply(c, s, step) && RetiredStopped(s.db)
    requires StepInput(s, step).row.aggregate == GraphRef(g)
             && RetiredName(MirroredName(Next(c, s, step).db.aggregates, g))
    ensures DeliveriesClosed(Next(c, s, step).db.outbox, g) && SetupStopped(Next(c, s, step).db.jobs, g)
  {
    var input := StepInput(s, step);
    var reply := c.handler(input);
    CommitTables(c, s, step);
    StepAggregates(c, s, step);
    assert GraphReply(input, reply);
    RetiredNameOf(StatusOf(reply.business, g));
    if NameOf(StatusOf(reply.business, g)) == MirroredStatus(input.current) {
      assert MirroredName(s.db.aggregates, g) == MirroredStatus(input.current);
      CommitKeepsClosed(s.db.outbox, GraphRef(g), reply.effects, input.now, g);
      CommitKeepsStopped(s.db.jobs, GraphRef(g), reply.cleared, reply.effects.jobs, reply.effects.cancels, input.now,
                         g);
    } else {
      CommitCloses(s.db.outbox, GraphRef(g), reply.effects, input.now, g);
      CommitStops(s.db.jobs, reply.cleared, reply.effects.jobs, reply.effects.cancels, input.now, g);
    }
  }

  lemma OtherCommitStops(c: Config<GraphTables>, s: GraphSystem, step: GraphStep, g: string)
    requires Enabled(c, s, step) && CommitsApply(c, s, step) && StepInput(s, step).row.aggregate != GraphRef(g)
    requires DeliveriesClosed(s.db.outbox, g) && SetupStopped(s.db.jobs, g)
    ensures DeliveriesClosed(Next(c, s, step).db.outbox, g) && SetupStopped(Next(c, s, step).db.jobs, g)
  {
    var input := StepInput(s, step);
    var reply := c.handler(input);
    CommitTables(c, s, step);
    CommitKeepsClosed(s.db.outbox, input.row.aggregate, reply.effects, input.now, g);
    CommitKeepsStopped(s.db.jobs, input.row.aggregate, reply.cleared, reply.effects.jobs, reply.effects.cancels,
                       input.now, g);
  }

  lemma RetiredStoppedKept(c: Config<GraphTables>, s: GraphSystem, step: GraphStep)
    requires TameEngine(c) && Enabled(c, s, step) && RetiredStopped(s.db)
    ensures RetiredStopped(Next(c, s, step).db)
  {
    var t := Next(c, s, step);
    StepAggregates(c, s, step);
    forall g | RetiredName(MirroredName(t.db.aggregates, g)) ensures DeliveriesClosed(t.db.outbox, g)
        && SetupStopped(t.db.jobs, g) {
      if CommitsApply(c, s, step) {
        if StepInput(s, step).row.aggregate == GraphRef(g) {
          OwnCommitStops(c, s, step, g);
        } else {
          OtherCommitStops(c, s, step, g);
        }
      } else {
        OtherStops(c, s, step);
      }
    }
  }

  lemma {:induction false} StoppedOverRuns(c: Config<GraphTables>, run: seq<GraphSystem>, steps: seq<GraphStep>, k: nat)
    requires TameEngine(c) && IsRun(c, run, steps) && k < |run| && run[0].db == NO_ROWS
    ensures RetiredStopped(run[k].db)
  {
    if k > 0 {
      StoppedOverRuns(c, run, steps, k - 1);
      var s, step := run[k - 1], steps[k - 1];
      assert Enabled(c, s, step) && run[k] == Next(c, s, step);
      RetiredStoppedKept(c, s, step);
    }
  }

  /** Whenever a graph's mirrored status is retired, its deliveries are closed and its
      setup and post jobs have ended or were asked to cancel. */
  lemma RetiredGraphsAreStopped(c: Config<GraphTables>, role: Role, run: seq<GraphSystem>, steps: seq<GraphStep>,
                                business: GraphTables, shards: nat, k: nat, g: string)
    requires GraphEngine(c, role) && IsRun(c, run, steps) && run[0] == Init(business, shards) && k < |run|
    requires RetiredName(MirroredName(run[k].db.aggregates, g))
    ensures forall m | m in run[k].db.outbox && run[k].db.outbox[m].aggregate == GraphRef(g) ::
            !run[k].db.outbox[m].state.Open?
    ensures forall j | j in run[k].db.jobs && SetupJob(run[k].db.jobs[j], g) ::
              !run[k].db.jobs[j].state.Pending?
                && (run[k].db.jobs[j].state.Running? ==> run[k].db.jobs[j].cancelRequested)
  {
    EngineIsTame(c, role);
    StoppedOverRuns(c, run, steps, k);
  }
}
