/** Generation fencing of leased jobs over whole runs, and the result rows jobs leave. */
module EngineFencing {
  import opened Common
  import opened EngineTypes
  import opened EngineTables
  import opened EngineTransactions
  import opened EngineMachine
  import opened EngineOwnership
  import opened EngineDelivery

  predicate SameJob(a: JobRow, b: JobRow) { a.aggregate == b.aggregate && a.phase == b.phase && a.action == b.action }

  // ------------------------------------------------------- how job rows move

  /** A row changes its generation only by a claim, which leaves it running; a row that
      ended stays as it ended. */
  predicate RowMoves(a: JobRow, b: JobRow) {
    && SameJob(a, b) && a.generation <= b.generation
    && (a.generation < b.generation ==> b.generation == a.generation + 1 && b.state.Running?)
    && (a.state.Terminal() ==> b.state == a.state && b.generation == a.generation)
    && (b.generation == a.generation && b.state.Running? ==> a.state.Running?)
  }

  predicate FreshJob(row: JobRow) { row.generation == 0 && !row.state.Running? }

  ghost predicate JobsMove(before: map<string, JobRow>, after: map<string, JobRow>) {
    && (forall j | j in before && j in after :: RowMoves(before[j], after[j]))
    && (forall j | j in after && j !in before :: FreshJob(after[j]))
  }

  /** Moves that claim nothing and remove nothing. */
  ghost predicate JobsQuiet(before: map<string, JobRow>, after: map<string, JobRow>) {
    && before.Keys <= after.Keys && JobsMove(before, after)
    && (forall j | j in before :: after[j].generation == before[j].generation)
  }

  lemma QuietCompose(a: map<string, JobRow>, b: map<string, JobRow>, c: map<string, JobRow>)
    requires JobsQuiet(a, b) && JobsQuiet(b, c)
    ensures JobsQuiet(a, c)
  {
  }

  lemma {:induction false} InsertJobsQuiet(jobs: map<string, JobRow>, a: AggregateRef, js: seq<JobSpec>, now: int)
    ensures JobsQuiet(jobs, InsertJobs(jobs, a, js, now))
  {
    if js != [] {
      var mid := InsertJobs(jobs, a, js[..|js| - 1], now);
      InsertJobsQuiet(jobs, a, js[..|js| - 1], now);
      QuietCompose(jobs, mid, InsertJob(mid, a, js[|js| - 1], now));
    }
  }

  /** The job table of a commit, in the order the transaction writes it. */
  function CommitJobs(jobs: map<string, JobRow>, a: AggregateRef, cleared: seq<string>, js: seq<JobSpec>,
                      cancels: seq<JobCancel>, now: int): map<string, JobRow>
  {
    CancelJobs(InsertJobs(ClearResults(jobs, cleared, now), a, js, now), cancels, a, now)
  }

  lemma ClearQuiet(jobs: map<string, JobRow>, cleared: seq<string>, now: int)
    ensures JobsQuiet(jobs, ClearResults(jobs, cleared, now))
  {
  }

  lemma CancelQuiet(jobs: map<string, JobRow>, cancels: seq<JobCancel>, own: AggregateRef, now: int)
    ensures JobsQuiet(jobs, CancelJobs(jobs, cancels, own, now))
  {
  }

  lemma CommitJobsQuiet(jobs: map<string, JobRow>, a: AggregateRef, cleared: seq<string>, js: seq<JobSpec>,
                        cancels: seq<JobCancel>, now: int)
    ensures JobsQuiet(jobs, CommitJobs(jobs, a, cleared, js, cancels, now))
  {
    var mid := ClearResults(jobs, cleared, now);
    var inserted := InsertJobs(mid, a, js, now);
    InsertJobsQuiet(mid, a, js, now);
    ClearQuiet(jobs, cleared, now);
    QuietCompose(jobs, mid, inserted);
    CancelQuiet(inserted, cancels, a, now);
    QuietCompose(jobs, inserted, CancelJobs(inserted, cancels, a, now));
  }

  lemma CommitReplyJobs<B>(db: Db, input: ApplyInput<B>, reply: Reply<B>, recheckAt: int)
    requires reply.Decided?
    ensures CommitReply(db, input, reply, recheckAt).jobs
            == CommitJobs(db.jobs, input.row.aggregate, reply.cleared, reply.effects.jobs, reply.effects.cancels,
                          input.now)
  {
    InsertAllOnlyInserts(db, reply.recorded, input.now);
  }

  lemma RecordJobs(db: Db, job: string, row: JobRow, f: Finish, now: int, backoff: int -> int)
    ensures RecordFinish(db, job, row, f, now, backoff).jobs == FinishJob(db.jobs, job, row.generation, f, now)
  {
    var outcome := FinishOutcomeOf(db.jobs, job, row.generation, f);
    assert ReportResult(db, job, row, outcome, f, now).jobs == db.jobs;
  }

  lemma ExecMoves(db: Db, holders: map<nat, Holder>, x: ExecStep, backoff: int -> int)
    requires ExecEnabled(db, holders, x)
    ensures JobsMove(db.jobs, ExecDb(db, holders, x, backoff).jobs)
    ensures db.jobs.Keys == ExecDb(db, holders, x, backoff).jobs.Keys
  {
    match x
    case RecordCompletion(h, at, _) =>
      RecordJobs(db, holders[h].job, holders[h].row, holders[h].finish.value, at, backoff);
    case SweepCancelled(_, _) =>
    case _ =>
  }

  lemma WorkMoves<B>(c: Config<B>, s: System<B>, w: nat, k: WorkStep)
    requires WorkEnabled(c, s, w, k)
    ensures JobsQuiet(s.db.jobs, WorkNext(c, s, w, k).db.jobs)
  {
    if k.Apply? {
      var input := InputOf(s, w, k.at, k.oracle);
      var reply := c.handler(input);
      if reply.Decided? {
        CommitReplyJobs(s.db, input, reply, k.recheckAt);
        CommitJobsQuiet(s.db.jobs, input.row.aggregate, reply.cleared, reply.effects.jobs, reply.effects.cancels, k.at);
      }
    }
  }

  lemma StepMoves<B>(c: Config<B>, s: System<B>, step: Step<B>)
    requires Enabled(c, s, step)
    ensures JobsMove(s.db.jobs, Next(c, s, step).db.jobs)
  {
    match step
    case Submit(u) => SubmitPassive(s.db, s.submitters, u);
    case Runtime(r) => RuntimeMoves(s.db, r);
    case Work(w, k) => WorkMoves(c, s, w, k);
    case Exec(x) => ExecMoves(s.db, s.holders, x, c.poisonBackoff);
    case _ =>
  }

  lemma RuntimeMoves(db: Db, r: RuntimeStep)
    ensures JobsMove(db.jobs, RuntimeDb(db, r).jobs)
  {
  }

  /** The lease of generation `g` is over for good. */
  predicate Spent(jobs: map<string, JobRow>, j: string, g: int) {
    j in jobs && g <= jobs[j].generation && !Holds(jobs, j, g)
  }

  lemma SpentStays(before: map<string, JobRow>, after: map<string, JobRow>, j: string, g: int)
    requires JobsMove(before, after) && Spent(before, j, g) && j in after
    ensures Spent(after, j, g)
  {
    assert RowMoves(before[j], after[j]);
  }

  // ----------------------------------------------------------------- holders

  /** Holders of a job claimed it at distinct generations, none newer than its row. */
  ghost predicate Fenced(jobs: map<string, JobRow>, holders: map<nat, Holder>, j: string) {
    && (forall h | h in holders && holders[h].job == j ::
          j in jobs && SameJob(holders[h].row, jobs[j]) && 1 <= holders[h].row.generation <= jobs[j].generation)
    && (forall h, k | h in holders && k in holders && h != k && holders[h].job == j && holders[k].job == j ::
          holders[h].row.generation != holders[k].row.generation)
    && (j in jobs ==> 0 <= jobs[j].generation)
  }

  lemma FewerHolders(before: map<string, JobRow>, after: map<string, JobRow>, holders: map<nat, Holder>,
                     left: map<nat, Holder>, j: string)
    requires Fenced(before, holders, j) && JobsMove(before, after) && (j in before ==> j in after)
    requires forall h | h in left :: h in holders && left[h].job == holders[h].job && left[h].row == holders[h].row
    ensures Fenced(after, left, j)
  {
    forall h | h in left && left[h].job == j
      ensures j in after && SameJob(left[h].row, after[j]) && 1 <= left[h].row.generation <= after[j].generation
    {
      assert j in before && RowMoves(before[j], after[j]);
    }
    if j in before { assert RowMoves(before[j], after[j]); }
  }

  lemma ClaimFences(jobs: map<string, JobRow>, holders: map<nat, Holder>, h: nat, job: string, leaseUntil: int,
                    at: int, j: string)
    requires Fenced(jobs, holders, j) && h !in holders && Claimable(jobs, job, at)
    ensures var row := ClaimedRow(jobs[job], leaseUntil, at);
            Fenced(jobs[job := row], holders[h := Holder(job, row, None)], j)
  {
  }

  lemma FencedKept<B>(c: Config<B>, s: System<B>, step: Step<B>, j: string)
    requires Fenced(s.db.jobs, s.holders, j) && Enabled(c, s, step)
    requires j in s.db.jobs ==> j in Next(c, s, step).db.jobs
    ensures Fenced(Next(c, s, step).db.jobs, Next(c, s, step).holders, j)
  {
    if step.Exec? && step.exec.Claim? {
      var Claim(h, job, leaseUntil, at) := step.exec;
      ClaimFences(s.db.jobs, s.holders, h, job, leaseUntil, at, j);
    } else {
      StepMoves(c, s, step);
      HoldersOnlyLeave(c, s, step);
      FewerHolders(s.db.jobs, Next(c, s, step).db.jobs, s.holders, Next(c, s, step).holders, j);
    }
  }

  lemma HoldersOnlyLeave<B>(c: Config<B>, s: System<B>, step: Step<B>)
    requires Enabled(c, s, step) && !(step.Exec? && step.exec.Claim?)
    ensures var left := Next(c, s, step).holders;
            forall h | h in left :: h in s.holders && left[h].job == s.holders[h].job && left[h].row == s.holders[h].row
  {
  }

  // ------------------------------------------------------------ jobs that end

  predicate Ends<B>(e: Entry<B>, j: string) { e.JobEnded? && e.job == j }

  /** At most one end is on record, and the row shows it. */
  ghost predicate EndsOnce<B>(log: seq<Entry<B>>, jobs: map<string, JobRow>, j: string) {
    && (forall i | 0 <= i < |log| && Ends(log[i], j) ::
          j in jobs && jobs[j].state.Terminal() && jobs[j].generation == log[i].generation)
    && (forall i, k | 0 <= i < k < |log| && Ends(log[i], j) :: !Ends(log[k], j))
  }

  ghost predicate EndsWithin<B>(es: seq<Entry<B>>, order: seq<string>, jobs: map<string, JobRow>, j: string) {
    && (forall i | 0 <= i < |es| && Ends(es[i], j) :: j in order && j in jobs && es[i].generation == jobs[j].generation)
    && (forall i, k | 0 <= i < k < |es| && Ends(es[i], j) :: !Ends(es[k], j))
  }

  lemma EndsWithinGrows<B>(es: seq<Entry<B>>, order: seq<string>, jobs: map<string, JobRow>, j: string, id: string,
                           last: seq<Entry<B>>)
    requires EndsWithin(es, order, jobs, j) && id !in order && id in jobs
    requires |last| > 0 && last[0] == JobEnded(id, jobs[id].generation)
    requires forall i | 0 < i < |last| :: last[i].ResultRecorded?
    ensures EndsWithin(es + last, order + [id], jobs, j)
  {
    var all := es + last;
    assert id in order + [id];
    forall i | 0 <= i < |all| && Ends(all[i], j)
      ensures j in order + [id] && j in jobs && all[i].generation == jobs[j].generation
    {
      if i < |es| { assert all[i] == es[i]; } else { assert all[i] == last[i - |es|]; }
    }
    forall i, k | 0 <= i < k < |all| && Ends(all[i], j) ensures !Ends(all[k], j) {
      if k < |es| { assert all[k] == es[k] && all[i] == es[i]; } else { assert all[k] == last[k - |es|]; }
    }
  }

  lemma {:induction false} SweepEnds<B>(db: Db, order: seq<string>, j: string)
    requires NoDuplicates(order) && forall id | id in order :: id in db.jobs
    ensures EndsWithin(SweepEntries<B>(db, order), order, db.jobs, j)
  {
    if order != [] {
      var front, id := order[..|order| - 1], order[|order| - 1];
      SweepEnds<B>(db, front, j);
      EndsWithinGrows(SweepEntries<B>(db, front), front, db.jobs, j, id,
                      EndEntries<B>(db, id, db.jobs[id], true, false, Some(JobOutcome.Cancelled)));
      assert order == front + [id];
    }
  }

  ghost predicate EndsNow<B>(before: map<string, JobRow>, after: map<string, JobRow>, es: seq<Entry<B>>, j: string) {
    && (forall i | 0 <= i < |es| && Ends(es[i], j) ::
          && j in before && before[j].state.Running? && before[j].generation == es[i].generation
          && j in after && after[j].state.Terminal() && after[j].generation == es[i].generation)
    && (forall i, k | 0 <= i < k < |es| && Ends(es[i], j) :: !Ends(es[k], j))
  }

  lemma SweepEndsNow<B>(db: Db, order: seq<string>, at: int, j: string)
    requires SweepOrder(db.jobs, order, at)
    ensures EndsNow(db.jobs, Sweep(db, order, at).jobs, SweepEntries<B>(db, order), j)
  {
    SweepEnds<B>(db, order, j);
    assert Sweep(db, order, at).jobs == SweepJobs(db.jobs, at);
    assert j in order ==> LapsedCancelled(db.jobs[j], at);
  }

  lemma RecordEndsNow<B>(db: Db, holders: map<nat, Holder>, x: ExecStep, backoff: int -> int, j: string)
    requires ExecEnabled(db, holders, x) && x.RecordCompletion?
    ensures EndsNow(db.jobs, ExecDb(db, holders, x, backoff).jobs, ResultEntries<B>(db, holders, x), j)
  {
    var Holder(job, row, Some(f)) := holders[x.holder];
    RecordJobs(db, job, row, f, x.at, backoff);
  }

  /** Entries that tell nothing about ends may come first. */
  lemma EndsNowAfter<B>(before: map<string, JobRow>, after: map<string, JobRow>, first: seq<Entry<B>>,
                        es: seq<Entry<B>>, j: string)
    requires EndsNow(before, after, es, j) && forall i | 0 <= i < |first| :: !first[i].JobEnded?
    ensures EndsNow(before, after, first + es, j)
  {
    var all := first + es;
    forall i | 0 <= i < |first| ensures !Ends(all[i], j) { assert all[i] == first[i]; }
    forall i, k | 0 <= i < k < |all| && Ends(all[i], j) ensures !Ends(all[k], j) {
      assert all[k] == es[k - |first|];
    }
  }

  lemma ExecEnds<B>(db: Db, holders: map<nat, Holder>, x: ExecStep, backoff: int -> int, j: string)
    requires ExecEnabled(db, holders, x)
    ensures EndsNow(db.jobs, ExecDb(db, holders, x, backoff).jobs, ExecLog<B>(db, holders, x), j)
  {
    if x.SweepCancelled? { SweepEndsNow<B>(db, x.order, x.at, j); }
    if x.RecordCompletion? { RecordEndsNow<B>(db, holders, x, backoff, j); }
    EndsNowAfter(db.jobs, ExecDb(db, holders, x, backoff).jobs, LeaseEntries<B>(db, holders, x),
                 ResultEntries<B>(db, holders, x), j);
  }

  lemma StepEnds<B>(c: Config<B>, s: System<B>, step: Step<B>, j: string)
    requires Enabled(c, s, step)
    ensures EndsNow(s.db.jobs, Next(c, s, step).db.jobs, NewEntries(c, s, step), j)
  {
    if step.Exec? { ExecEnds<B>(s.db, s.holders, step.exec, c.poisonBackoff, j); }
  }

  lemma EndsOnceKept<B>(c: Config<B>, s: System<B>, step: Step<B>, j: string)
    requires EndsOnce(s.log, s.db.jobs, j) && Enabled(c, s, step)
    requires j in s.db.jobs ==> j in Next(c, s, step).db.jobs
    ensures EndsOnce(s.log + NewEntries(c, s, step), Next(c, s, step).db.jobs, j)
  {
    StepMoves(c, s, step);
    StepEnds(c, s, step, j);
    EndsOnceGrows(s.log, NewEntries(c, s, step), s.db.jobs, Next(c, s, step).db.jobs, j);
  }

  lemma EndsOnceGrows<B>(log: seq<Entry<B>>, es: seq<Entry<B>>, before: map<string, JobRow>, after: map<string, JobRow>,
                         j: string)
    requires EndsOnce(log, before, j) && EndsNow(before, after, es, j) && JobsMove(before, after)
             && (j in before ==> j in after)
    ensures EndsOnce(log + es, after, j)
  {
    var all := log + es;
    forall i | 0 <= i < |all| && Ends(all[i], j)
      ensures j in after && after[j].state.Terminal() && after[j].generation == all[i].generation
    {
      if i < |log| {
        assert all[i] == log[i] && RowMoves(before[j], after[j]);
      } else {
        assert all[i] == es[i - |log|];
      }
    }
    forall i, k | 0 <= i < k < |all| && Ends(all[i], j) ensures !Ends(all[k], j) {
      if k < |log| {
        assert all[i] == log[i] && all[k] == log[k];
      } else if i < |log| {
        assert all[i] == log[i] && all[k] == es[k - |log|];
      } else {
        assert all[i] == es[i - |log|] && all[k] == es[k - |log|];
      }
    }
  }
}
