/** A running job that was asked to cancel is over: it is never claimed again and never
    counts as done, over whole runs. */
module EngineCancels {
  import opened EngineTypes
  import opened EngineTables
  import opened EngineTransactions
  import opened EngineMachine
  import opened EngineOwnership
  import opened EngineDelivery
  import opened EngineFencing
  import opened EngineResults

  /** Asked to cancel, and neither waiting to run nor done. */
  predicate Stopping(row: JobRow) { row.cancelRequested && !row.state.Pending? && !row.state.Done? }

  /** The request reaches running jobs only, and from then on the row neither waits, nor is
      claimed, nor is done. */
  predicate StopMoves(a: JobRow, b: JobRow) {
    && (Stopping(a) ==> Stopping(b) && b.generation == a.generation)
    && (!a.cancelRequested && b.cancelRequested ==> Stopping(b))
  }

  ghost predicate JobsStop(before: map<string, JobRow>, after: map<string, JobRow>) {
    && (forall j | j in before && j in after :: StopMoves(before[j], after[j]))
    && (forall j | j in after && j !in before :: !after[j].cancelRequested)
  }

  lemma StopCompose(a: map<string, JobRow>, b: map<string, JobRow>, c: map<string, JobRow>)
    requires JobsStop(a, b) && JobsStop(b, c) && a.Keys <= b.Keys
    requires forall j | j in c && j !in a :: !c[j].cancelRequested
    ensures JobsStop(a, c)
  {
    forall j | j in a && j in c ensures StopMoves(a[j], c[j]) {
      assert j in b && StopMoves(a[j], b[j]) && StopMoves(b[j], c[j]);
    }
  }

  lemma {:induction false} InsertedOnlyPending(jobs: map<string, JobRow>, a: AggregateRef, js: seq<JobSpec>, now: int)
    ensures var after := InsertJobs(jobs, a, js, now);
            && jobs.Keys <= after.Keys && (forall j | j in jobs :: after[j] == jobs[j])
            && (forall j | j in after && j !in jobs :: after[j].state.Pending? && !after[j].cancelRequested)
  {
    if js != [] { InsertedOnlyPending(jobs, a, js[..|js| - 1], now); }
  }

  /** A job cancelled while it waits ends at once, without a request. */
  lemma CancelStops(jobs: map<string, JobRow>, cs: seq<JobCancel>, own: AggregateRef, now: int)
    ensures var after := CancelJobs(jobs, cs, own, now);
            && JobsStop(jobs, after) && after.Keys == jobs.Keys
            && (forall j | j in jobs && jobs[j].state.Pending? && !jobs[j].cancelRequested :: !after[j].cancelRequested)
  {
  }

  lemma ClearStops(jobs: map<string, JobRow>, cleared: seq<string>, now: int)
    ensures JobsStop(jobs, ClearResults(jobs, cleared, now)) && ClearResults(jobs, cleared, now).Keys == jobs.Keys
  {
  }

  lemma CommitJobsStop(jobs: map<string, JobRow>, a: AggregateRef, cleared: seq<string>, js: seq<JobSpec>,
                       cancels: seq<JobCancel>, now: int)
    ensures JobsStop(jobs, CommitJobs(jobs, a, cleared, js, cancels, now))
  {
    var mid := ClearResults(jobs, cleared, now);
    var inserted := InsertJobs(mid, a, js, now);
    ClearStops(jobs, cleared, now);
    InsertedOnlyPending(mid, a, js, now);
    StopCompose(jobs, mid, inserted);
    CancelStops(inserted, cancels, a, now);
    StopCompose(jobs, inserted, CancelJobs(inserted, cancels, a, now));
  }

  lemma FinishStops(jobs: map<string, JobRow>, id: string, generation: int, f: Finish, now: int)
    ensures JobsStop(jobs, FinishJob(jobs, id, generation, f, now))
  {
  }

  lemma ExecStops(db: Db, holders: map<nat, Holder>, x: ExecStep, backoff: int -> int)
    requires ExecEnabled(db, holders, x)
    ensures JobsStop(db.jobs, ExecDb(db, holders, x, backoff).jobs)
  {
    if x.RecordCompletion? {
      var Holder(job, row, Some(f)) := holders[x.holder];
      RecordJobs(db, job, row, f, x.at, backoff);
      FinishStops(db.jobs, job, row.generation, f, x.at);
    }
  }

  lemma RuntimeStops(db: Db, r: RuntimeStep)
    ensures JobsStop(db.jobs, RuntimeDb(db, r).jobs)
  {
  }

  lemma WorkStops<B>(c: Config<B>, s: System<B>, w: nat, k: WorkStep)
    requires WorkEnabled(c, s, w, k)
    ensures JobsStop(s.db.jobs, WorkNext(c, s, w, k).db.jobs)
  {
    if k.Apply? {
      var input := InputOf(s, w, k.at, k.oracle);
      var reply := c.handler(input);
      if reply.Decided? {
        CommitReplyJobs(s.db, input, reply, k.recheckAt);
        CommitJobsStop(s.db.jobs, input.row.aggregate, reply.cleared, reply.effects.jobs, reply.effects.cancels, k.at);
      }
    }
  }

  lemma StepStops<B>(c: Config<B>, s: System<B>, step: Step<B>)
    requires Enabled(c, s, step)
    ensures JobsStop(s.db.jobs, Next(c, s, step).db.jobs)
  {
    match step
    case Submit(u) => SubmitPassive(s.db, s.submitters, u);
    case Runtime(r) => RuntimeStops(s.db, r);
    case Work(w, k) => WorkStops(c, s, w, k);
    case Exec(x) => ExecStops(s.db, s.holders, x, c.poisonBackoff);
    case _ =>
  }

  /** The job tables of a run, one after the other. */
  function JobTables<B>(run: seq<System<B>>): seq<map<string, JobRow>> {
    seq(|run|, i requires 0 <= i < |run| => run[i].db.jobs)
  }

  ghost predicate TablesStop(tables: seq<map<string, JobRow>>) {
    forall i | 0 <= i < |tables| - 1 :: JobsStop(tables[i], tables[i + 1])
  }

  lemma RunStops<B(!new)>(c: Config<B>, run: seq<System<B>>, steps: seq<Step<B>>)
    requires IsRun(c, run, steps)
    ensures TablesStop(JobTables(run))
  {
    forall i | 0 <= i < |run| - 1 ensures JobsStop(JobTables(run)[i], JobTables(run)[i + 1]) {
      assert Enabled(c, run[i], steps[i]) && run[i + 1] == Next(c, run[i], steps[i]);
      StepStops(c, run[i], steps[i]);
    }
  }

  /** A request stands for a stopping job in every table that follows an empty one. */
  lemma {:induction false} RequestsStop(tables: seq<map<string, JobRow>>, j: string, k: nat)
    requires TablesStop(tables) && k < |tables| && tables[0] == map[] && j in tables[k] && tables[k][j].cancelRequested
    ensures Stopping(tables[k][j])
  {
    if k > 0 {
      assert JobsStop(tables[k - 1], tables[k - 1 + 1]);
      assert j in tables[k - 1] && StopMoves(tables[k - 1][j], tables[k][j]);
      if tables[k - 1][j].cancelRequested { RequestsStop(tables, j, k - 1); }
    }
  }

  lemma {:induction false} StoppingStays(tables: seq<map<string, JobRow>>, j: string, i: nat, k: nat)
    requires TablesStop(tables) && i <= k < |tables| && forall m | i <= m <= k :: j in tables[m]
    requires Stopping(tables[i][j])
    ensures Stopping(tables[k][j]) && tables[k][j].generation == tables[i][j].generation
    decreases k
  {
    if i < k {
      StoppingStays(tables, j, i, k - 1);
      assert JobsStop(tables[k - 1], tables[k - 1 + 1]);
      assert StopMoves(tables[k - 1][j], tables[k][j]);
    }
  }

  /** The row of `j` is kept from state `i` to state `k`. */
  ghost predicate Kept<B>(run: seq<System<B>>, j: string, i: nat, k: nat)
    requires i <= k < |run|
  {
    forall m | i <= m <= k :: j in run[m].db.jobs
  }

  /** Once a job was asked to cancel, no later state that kept its row shows it waiting or
      done, and its generation stays. */
  lemma CancelledNeverRunsAgain<B(!new)>(c: Config<B>, run: seq<System<B>>, steps: seq<Step<B>>, business: B,
                                         shards: nat, j: string, i: nat, k: nat)
    requires IsRun(c, run, steps) && run[0] == Init(business, shards) && i <= k <= |steps|
    requires Kept(run, j, i, k) && run[i].db.jobs[j].cancelRequested
    ensures Stopping(run[k].db.jobs[j]) && run[k].db.jobs[j].generation == run[i].db.jobs[j].generation
  {
    var tables := JobTables(run);
    RunStops(c, run, steps);
    RequestsStop(tables, j, i);
    StoppingStays(tables, j, i, k);
  }

  /** Nobody claims it either, at whatever time. */
  lemma CancelledNeverClaimed<B(!new)>(c: Config<B>, run: seq<System<B>>, steps: seq<Step<B>>, business: B, shards: nat,
                                       j: string, i: nat, k: nat, now: int)
    requires IsRun(c, run, steps) && run[0] == Init(business, shards) && i <= k <= |steps|
    requires Kept(run, j, i, k) && run[i].db.jobs[j].cancelRequested
    ensures !Claimable(run[k].db.jobs, j, now)
  {
    CancelledNeverRunsAgain(c, run, steps, business, shards, j, i, k);
  }

  // ------------------------------------------------------ what the aggregate is told

  predicate ReportsDone<B>(e: Entry<B>, j: string) {
    ResultFor(e, j) && e.event.payload.Result? && e.event.payload.result.outcome.Done?
  }

  ghost predicate TellsDone<B>(es: seq<Entry<B>>, j: string) { exists n | 0 <= n < |es| :: ReportsDone(es[n], j) }

  /** A holder of `j` that lost its lease records a success, and its generation has no
      result yet. */
  predicate LateSuccess<B>(s: System<B>, step: Step<B>, j: string) {
    && step.Exec? && step.exec.RecordCompletion? && step.exec.holder in s.holders
    && var h := s.holders[step.exec.holder];
    && h.job == j && h.finish.Some? && h.finish.value.Done?
    && !Holds(s.db.jobs, j, h.row.generation) && ResultOf(j, h.row.generation) !in s.db.inbox
  }

  lemma CompletionTellsDone<B>(db: Db, holders: map<nat, Holder>, x: ExecStep, j: string)
    requires ExecEnabled(db, holders, x) && x.RecordCompletion? && j in db.jobs && Stopping(db.jobs[j])
    ensures var h := holders[x.holder];
            TellsDone(ResultEntries<B>(db, holders, x), j) <==>
              && h.job == j && h.finish.value.Done? && !Holds(db.jobs, j, h.row.generation)
              && ResultOf(j, h.row.generation) !in db.inbox
  {
    var h := holders[x.holder];
    var es := ResultEntries<B>(db, holders, x);
    if h.job == j && h.finish.value.Done? && !Holds(db.jobs, j, h.row.generation)
       && ResultOf(j, h.row.generation) !in db.inbox {
      assert ReportsDone(es[|es| - 1], j);
    }
  }

  lemma SweepTellsNoDone<B>(db: Db, order: seq<string>, at: int, j: string)
    requires SweepOrder(db.jobs, order, at)
    ensures !TellsDone(SweepEntries<B>(db, order), j)
  {
    SweepRecords<B>(db, order);
  }

  lemma TellsDoneAfter<B>(first: seq<Entry<B>>, es: seq<Entry<B>>, j: string)
    ensures TellsDone(first + es, j) <==> TellsDone(first, j) || TellsDone(es, j)
  {
    var all := first + es;
    if n :| 0 <= n < |first| && ReportsDone(first[n], j) { assert all[n] == first[n]; }
    if n :| 0 <= n < |es| && ReportsDone(es[n], j) { assert all[|first| + n] == es[n]; }
    if n :| 0 <= n < |all| && ReportsDone(all[n], j) {
      assert all[n] == if n < |first| then first[n] else es[n - |first|];
    }
  }

  /** The aggregate of a job that was asked to cancel is told of a success in exactly one
      way: by a holder without its lease whose generation has no result yet. */
  lemma StepTellsDoneIff<B>(c: Config<B>, s: System<B>, step: Step<B>, j: string)
    requires Enabled(c, s, step) && j in s.db.jobs && Stopping(s.db.jobs[j])
    ensures TellsDone(NewEntries(c, s, step), j) <==> LateSuccess(s, step, j)
  {
    if step.Exec? {
      var x := step.exec;
      TellsDoneAfter(LeaseEntries<B>(s.db, s.holders, x), ResultEntries<B>(s.db, s.holders, x), j);
      if x.RecordCompletion? { CompletionTellsDone<B>(s.db, s.holders, x, j); }
      if x.SweepCancelled? { SweepTellsNoDone<B>(s.db, x.order, x.at, j); }
    }
  }

  /** Histories one after the other, each the one before and what a step added. */
  ghost predicate Histories<B>(logs: seq<seq<Entry<B>>>, added: seq<seq<Entry<B>>>) {
    |logs| == |added| + 1 && forall m | 0 <= m < |added| :: logs[m + 1] == logs[m] + added[m]
  }

  lemma {:induction false} ToldBetween<B>(logs: seq<seq<Entry<B>>>, added: seq<seq<Entry<B>>>, j: string, i: nat,
                                          k: nat)
    requires Histories(logs, added) && i <= k < |logs|
    ensures |logs[i]| <= |logs[k]|
    ensures TellsDone(logs[k][|logs[i]|..], j) <==> exists m | i <= m < k :: TellsDone(added[m], j)
    decreases k
  {
    if i < k {
      ToldBetween(logs, added, j, i, k - 1);
      assert logs[k - 1 + 1] == logs[k - 1] + added[k - 1];
      assert logs[k][|logs[i]|..] == logs[k - 1][|logs[i]|..] + added[k - 1];
      TellsDoneAfter(logs[k - 1][|logs[i]|..], added[k - 1], j);
    }
  }

  function Logs<B>(run: seq<System<B>>): seq<seq<Entry<B>>> {
    seq(|run|, m requires 0 <= m < |run| => run[m].log)
  }

  /** What each step of a run added to the history. */
  ghost predicate Added<B(!new)>(c: Config<B>, run: seq<System<B>>, steps: seq<Step<B>>, added: seq<seq<Entry<B>>>)
    requires IsRun(c, run, steps)
  {
    |added| == |steps| && forall m | 0 <= m < |steps| :: added[m] == NewEntries(c, run[m], steps[m])
  }

  lemma AddedBy<B(!new)>(c: Config<B>, run: seq<System<B>>, steps: seq<Step<B>>) returns (added: seq<seq<Entry<B>>>)
    requires IsRun(c, run, steps)
    ensures Added(c, run, steps, added) && Histories(Logs(run), added)
  {
    added := seq(|steps|, m requires 0 <= m < |steps| && Enabled(c, run[m], steps[m]) =>
                            NewEntries(c, run[m], steps[m]));
    forall m | 0 <= m < |steps| ensures Logs(run)[m + 1] == Logs(run)[m] + added[m] {
      assert run[m + 1] == Next(c, run[m], steps[m]);
      LogGrows(c, run[m], steps[m]);
    }
  }

  lemma ToldAt<B(!new)>(c: Config<B>, run: seq<System<B>>, steps: seq<Step<B>>, business: B, shards: nat, j: string,
                        i: nat, m: nat, es: seq<Entry<B>>)
    requires IsRun(c, run, steps) && run[0] == Init(business, shards) && i <= m < |steps|
    requires Kept(run, j, i, m) && run[i].db.jobs[j].cancelRequested
    requires es == NewEntries(c, run[m], steps[m])
    ensures TellsDone(es, j) <==> LateSuccess(run[m], steps[m], j)
  {
    CancelledNeverRunsAgain(c, run, steps, business, shards, j, i, m);
    StepTellsDoneIff(c, run[m], steps[m], j);
  }

  /** Over whole runs: after the request the aggregate is told of a success if and only if a
      holder without its lease recorded one while its generation had no result. */
  lemma ToldOfSuccessIff<B(!new)>(c: Config<B>, run: seq<System<B>>, steps: seq<Step<B>>, business: B, shards: nat,
                                  j: string, i: nat, k: nat)
    requires IsRun(c, run, steps) && run[0] == Init(business, shards) && i <= k <= |steps|
    requires Kept(run, j, i, k) && run[i].db.jobs[j].cancelRequested
    ensures |run[i].log| <= |run[k].log|
    ensures TellsDone(run[k].log[|run[i].log|..], j) <==> exists m | i <= m < k :: LateSuccess(run[m], steps[m], j)
  {
    var added := AddedBy(c, run, steps);
    ToldBetween(Logs(run), added, j, i, k);
    forall m | i <= m < k ensures TellsDone(added[m], j) <==> LateSuccess(run[m], steps[m], j) {
      ToldAt(c, run, steps, business, shards, j, i, m, added[m]);
    }
    assert Logs(run)[k] == run[k].log && Logs(run)[i] == run[i].log;
  }

  lemma StepToldIsStale<B>(c: Config<B>, s: System<B>, step: Step<B>, j: string, n: nat)
    requires Enabled(c, s, step) && j in s.db.jobs && Stopping(s.db.jobs[j])
    requires n < |NewEntries(c, s, step)| && ReportsDone(NewEntries(c, s, step)[n], j)
    ensures NewEntries(c, s, step)[n].event.payload.result.stale
  {
    if step.Exec? && step.exec.SweepCancelled? { SweepRecords<B>(s.db, step.exec.order); }
  }

  /** Every entry beyond a history was added by one of the steps after it. */
  lemma {:induction false} AddedAt<B>(logs: seq<seq<Entry<B>>>, added: seq<seq<Entry<B>>>, i: nat, k: nat, n: nat)
    returns (m: nat, r: nat)
    requires Histories(logs, added) && i <= k < |logs| && |logs[i]| <= n < |logs[k]|
    ensures i <= m < k && r < |added[m]| && logs[k][n] == added[m][r]
    decreases k
  {
    assert logs[k - 1 + 1] == logs[k - 1] + added[k - 1];
    if n < |logs[k - 1]| {
      m, r := AddedAt(logs, added, i, k - 1, n);
    } else {
      m, r := k - 1, n - |logs[k - 1]|;
    }
  }

  /** Over whole runs: a success the aggregate is told of after the request is marked stale.
      The end of the job itself is reported as a cancel or a failure. */
  lemma ToldOfSuccessIsStale<B(!new)>(c: Config<B>, run: seq<System<B>>, steps: seq<Step<B>>, business: B, shards: nat,
                                      j: string, i: nat, k: nat, n: nat)
    requires IsRun(c, run, steps) && run[0] == Init(business, shards) && i <= k <= |steps|
    requires Kept(run, j, i, k) && run[i].db.jobs[j].cancelRequested
    requires |run[i].log| <= n < |run[k].log| && ReportsDone(run[k].log[n], j)
    ensures run[k].log[n].event.payload.result.stale
  {
    var added := AddedBy(c, run, steps);
    var m, r := AddedAt(Logs(run), added, i, k, n);
    assert Kept(run, j, i, m);
    CancelledNeverRunsAgain(c, run, steps, business, shards, j, i, m);
    StepToldIsStale(c, run[m], steps[m], j, r);
  }
}
