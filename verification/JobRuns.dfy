/** What the fence guarantees over whole runs, and where it stops. */
module EngineJobRuns {
  import opened EngineTypes
  import opened EngineTables
  import opened EngineTransactions
  import opened EngineMachine
  import opened EngineOwnership
  import opened EngineDelivery
  import opened EngineFencing
  import opened EngineResults

  /** No purge of the run removes the row of job `j`. */
  ghost predicate JobRetained<B>(run: seq<System<B>>, j: string) {
    forall i | 0 <= i < |run| - 1 :: j in run[i].db.jobs ==> j in run[i + 1].db.jobs
  }

  ghost predicate JobInvariant<B>(s: System<B>, j: string) {
    && Fenced(s.db.jobs, s.holders, j) && EndsOnce(s.log, s.db.jobs, j) && ResultsSound(s.log, s.db.jobs, j)
    && RecordedIsStored(s.log, s.db.inbox) && RecordedOnce(s.log)
    && StoredWasRecorded(s.log, s.db.inbox) && StaleIsOwn(s.log, s.holders, j)
  }

  lemma JobInvariantKept<B>(c: Config<B>, s: System<B>, step: Step<B>, j: string)
    requires JobInvariant(s, j) && Enabled(c, s, step) && (j in s.db.jobs ==> j in Next(c, s, step).db.jobs)
    ensures JobInvariant(Next(c, s, step), j)
  {
    var t, es := Next(c, s, step), NewEntries(c, s, step);
    LogGrows(c, s, step);
    FencedKept(c, s, step, j);
    EndsOnceKept(c, s, step, j);
    ResultsSoundKept(c, s, step, j);
    StepRecords(c, s, step);
    StepStores(c, s, step);
    RecordedIsStoredGrows(s.log, es, s.db.inbox, t.db.inbox);
    RecordedOnceGrows(s.log, es, s.db.inbox, t.db.inbox);
    StaleIsOwnKept(c, s, step, j);
    StepNewIsRecorded(c, s, step);
    forall id | id in s.db.inbox && id in t.db.inbox ensures KeepsContent(s.db.inbox[id], t.db.inbox[id]) {
      RowKeepsContent(c, s, step, id);
    }
    StoredWasRecordedGrows(s.log, es, s.db.inbox, t.db.inbox);
  }

  lemma InitJobs<B>(business: B, shards: nat, j: string)
    ensures JobInvariant(Init(business, shards), j)
  {
  }

  lemma {:induction false} JobInvariantOverRuns<B(!new)>(c: Config<B>, run: seq<System<B>>, steps: seq<Step<B>>,
                                                         business: B, shards: nat, j: string, k: nat)
    requires IsRun(c, run, steps) && run[0] == Init(business, shards) && JobRetained(run, j) && k <= |steps|
    ensures JobInvariant(run[k], j)
  {
    if k == 0 {
      InitJobs(business, shards, j);
    } else {
      JobInvariantOverRuns(c, run, steps, business, shards, j, k - 1);
      var s, step := run[k - 1], steps[k - 1];
      assert Enabled(c, s, step) && run[k] == Next(c, s, step) && (j in s.db.jobs ==> j in run[k].db.jobs);
      JobInvariantKept(c, s, step, j);
    }
  }

  /** Generations of a retained job only grow, and a job that ended stays as it ended. */
  lemma {:induction false} GenerationsOnlyGrow<B(!new)>(c: Config<B>, run: seq<System<B>>, steps: seq<Step<B>>,
                                                        j: string, i: nat, k: nat)
    requires IsRun(c, run, steps) && JobRetained(run, j) && i <= k <= |steps| && j in run[i].db.jobs
    ensures j in run[k].db.jobs
    ensures run[i].db.jobs[j].generation <= run[k].db.jobs[j].generation
    ensures run[i].db.jobs[j].state.Terminal() ==>
              run[k].db.jobs[j].state == run[i].db.jobs[j].state
              && run[k].db.jobs[j].generation == run[i].db.jobs[j].generation
    ensures forall g | Spent(run[i].db.jobs, j, g) :: Spent(run[k].db.jobs, j, g)
    decreases k
  {
    if i < k {
      GenerationsOnlyGrow(c, run, steps, j, i, k - 1);
      StepMoves(c, run[k - 1], steps[k - 1]);
      assert RowMoves(run[k - 1].db.jobs[j], run[k].db.jobs[j]);
    }
  }

  /** The step is a renewal or a completion by holder `h`. */
  predicate HolderWrites<B>(step: Step<B>, h: nat) {
    step.Exec? && ((step.exec.Renew? && step.exec.holder == h)
                   || (step.exec.RecordCompletion? && step.exec.holder == h))
  }

  lemma SpentWritesNothing(db: Db, holders: map<nat, Holder>, x: ExecStep, backoff: int -> int)
    requires ExecEnabled(db, holders, x) && (x.Renew? || x.RecordCompletion?)
    requires !Holds(db.jobs, holders[x.holder].job, holders[x.holder].row.generation)
    ensures ExecDb(db, holders, x, backoff).jobs == db.jobs && ExecDb(db, holders, x, backoff).poison == db.poison
  {
    if x.RecordCompletion? {
      var h := holders[x.holder];
      RecordJobs(db, h.job, h.row, h.finish.value, x.at, backoff);
    }
  }

  /** Once a newer generation was claimed, nothing the older holder still does changes a
      job row or the poison table, however late it comes. */
  lemma OlderHolderNeverWrites<B(!new)>(c: Config<B>, run: seq<System<B>>, steps: seq<Step<B>>, h: nat, i: nat, k: nat)
    requires IsRun(c, run, steps) && i <= k < |steps| && h in run[k].holders
    requires var j := run[k].holders[h].job;
             JobRetained(run, j) && j in run[i].db.jobs
             && run[k].holders[h].row.generation < run[i].db.jobs[j].generation
    requires HolderWrites(steps[k], h)
    ensures run[k + 1].db.jobs == run[k].db.jobs && run[k + 1].db.poison == run[k].db.poison
  {
    GenerationsOnlyGrow(c, run, steps, run[k].holders[h].job, i, k);
    SpentWritesNothing(run[k].db, run[k].holders, steps[k].exec, c.poisonBackoff);
  }

  /** At most one terminal completion of a retained job takes effect. */
  lemma OneTerminalCompletion<B(!new)>(c: Config<B>, run: seq<System<B>>, steps: seq<Step<B>>, business: B, shards: nat,
                                       j: string, a: nat, b: nat)
    requires IsRun(c, run, steps) && run[0] == Init(business, shards) && JobRetained(run, j)
    requires var log := run[|steps|].log; a < |log| && b < |log| && Ends(log[a], j) && Ends(log[b], j)
    ensures a == b
    ensures j in run[|steps|].db.jobs && run[|steps|].db.jobs[j].state.Terminal()
    ensures run[|steps|].db.jobs[j].generation == run[|steps|].log[a].generation
  {
    JobInvariantOverRuns(c, run, steps, business, shards, j, |steps|);
  }

  ghost predicate StaleOnly<B>(log: seq<Entry<B>>, id: EventId) {
    forall i | 0 <= i < |log| && Records(log[i], id) :: log[i].event.payload.Result?
        && log[i].event.payload.result.stale
  }

  lemma SupersededIsStale<B>(log: seq<Entry<B>>, jobs: map<string, JobRow>, j: string, g: int)
    requires ResultsSound(log, jobs, j) && j in jobs && g < jobs[j].generation
    ensures StaleOnly(log, ResultOf(j, g))
  {
    forall i | 0 <= i < |log| && Records(log[i], ResultOf(j, g))
      ensures log[i].event.payload.Result? && log[i].event.payload.result.stale
    {
      assert ResultFor(log[i], j);
    }
  }

  /** Under a superseded holder's key nothing but its own outcome is stored. */
  lemma StoredIsOwn<B>(s: System<B>, h: nat)
    requires h in s.holders && JobInvariant(s, s.holders[h].job) && s.holders[h].job in s.db.jobs
    requires s.holders[h].row.generation < s.db.jobs[s.holders[h].job].generation
    requires ResultOf(s.holders[h].job, s.holders[h].row.generation) in s.db.inbox
    ensures s.holders[h].finish.Some? && TerminalOutcome(s.holders[h].finish.value).Some?
    ensures var Holder(j, row, Some(f)) := s.holders[h];
            Carries(s.db.inbox[ResultOf(j, row.generation)],
                    ResultEvent(j, row, row.generation, true, TerminalOutcome(f).value))
  {
    var j, g := s.holders[h].job, s.holders[h].row.generation;
    var i :| 0 <= i < |s.log| && Records(s.log[i], ResultOf(j, g))
        && Carries(s.db.inbox[ResultOf(j, g)], s.log[i].event);
    SupersededIsStale(s.log, s.db.jobs, j, g);
    assert OwnOutcome(s.holders[h], s.log[i].event);
  }

  /** After a superseded holder recorded its terminal outcome, exactly that outcome is in
      the inbox, marked stale; it entered once while its row is kept. */
  lemma SupersededOutcomeEntersOnce<B(!new)>(c: Config<B>, run: seq<System<B>>, steps: seq<Step<B>>, business: B,
                                             shards: nat, h: nat, k: nat)
    requires IsRun(c, run, steps) && run[0] == Init(business, shards) && k < |steps|
    requires steps[k].Exec? && steps[k].exec.RecordCompletion? && steps[k].exec.holder == h
    requires var Holder(j, row, f) := run[k].holders[h];
             && JobRetained(run, j) && TerminalOutcome(f.value).Some?
             && j in run[k].db.jobs && row.generation < run[k].db.jobs[j].generation
    ensures var Holder(j, row, f) := run[k].holders[h];
            var e := ResultEvent(j, row, row.generation, true, TerminalOutcome(f.value).value);
            && e.id in run[k + 1].db.inbox && Carries(run[k + 1].db.inbox[e.id], e)
            && run[k + 1].log == run[k].log + (if e.id in run[k].db.inbox then [] else [ResultRecorded(e)])
            && StaleOnly(run[k + 1].log, e.id) && RecordedOnce(run[k + 1].log)
  {
    var Holder(j, row, f) := run[k].holders[h];
    JobInvariantOverRuns(c, run, steps, business, shards, j, k);
    JobInvariantOverRuns(c, run, steps, business, shards, j, k + 1);
    var s, x := run[k], steps[k].exec;
    RecordInbox(s.db, j, row, f.value, x.at, c.poisonBackoff);
    RecordJobs(s.db, j, row, f.value, x.at, c.poisonBackoff);
    SupersededIsStale(run[k + 1].log, run[k + 1].db.jobs, j, row.generation);
    var e := ResultEvent(j, row, row.generation, true, TerminalOutcome(f.value).value);
    if e.id in s.db.inbox {
      StoredIsOwn(s, h);
      RowKeepsContent(c, s, steps[k], e.id);
    }
  }

  // ------------------------------------------------------------- repeated completions

  /** Only the re-arming of a failed result row is left for a repeated completion to do. */
  ghost predicate RepeatedOnly(before: Db, after: Db, id: EventId) {
    && after.jobs == before.jobs && after.poison == before.poison && after.outbox == before.outbox
    && after.aggregates == before.aggregates && after.inbox.Keys == before.inbox.Keys
    && (forall e | e in before.inbox && e != id :: after.inbox[e] == before.inbox[e])
    && (id in before.inbox ==>
          if before.inbox[id].state.Failed? then Passive(before.inbox[id], after.inbox[id])
          else after.inbox[id] == before.inbox[id])
  }

  /** Nothing but one more result, marked stale, in the inbox. */
  ghost predicate ResultComesBack(before: Db, after: Db, j: string, row: JobRow, outcome: JobOutcome) {
    var e := ResultEvent(j, row, row.generation, true, outcome);
    && after.jobs == before.jobs && after.poison == before.poison && after.outbox == before.outbox
    && after.aggregates == before.aggregates && e.id !in before.inbox
    && after.inbox.Keys == before.inbox.Keys + {e.id} && Carries(after.inbox[e.id], e)
    && (forall id | id in before.inbox :: after.inbox[id] == before.inbox[id])
  }

  /** Without a lease a completion only submits its terminal outcome, marked stale. */
  lemma SpentRecord(db: Db, j: string, row: JobRow, f: Finish, now: int, backoff: int -> int)
    requires Spent(db.jobs, j, row.generation)
    ensures RecordFinish(db, j, row, f, now, backoff)
            == if TerminalOutcome(f).None? then db
               else InsertInbox(db, ResultEvent(j, row, row.generation, true, TerminalOutcome(f).value), now)
  {
    var outcome := FinishOutcomeOf(db.jobs, j, row.generation, f);
    assert ReportResult(db, j, row, outcome, f, now).jobs == db.jobs;
  }

  lemma RepeatedRecord(db: Db, j: string, row: JobRow, f: Finish, now: int, backoff: int -> int)
    requires Spent(db.jobs, j, row.generation)
    ensures var after := RecordFinish(db, j, row, f, now, backoff);
            if TerminalOutcome(f).Some? ==> ResultOf(j, row.generation) in db.inbox
            then RepeatedOnly(db, after, ResultOf(j, row.generation))
            else ResultComesBack(db, after, j, row, TerminalOutcome(f).value)
  {
    SpentRecord(db, j, row, f, now, backoff);
  }

  lemma FirstRecord(db: Db, j: string, row: JobRow, f: Finish, now: int, backoff: int -> int)
    requires j in db.jobs && row.generation <= db.jobs[j].generation
    ensures var after := RecordFinish(db, j, row, f, now, backoff);
            Spent(after.jobs, j, row.generation)
            && (TerminalOutcome(f).Some? ==> ResultOf(j, row.generation) in after.inbox)
  {
    RecordInbox(db, j, row, f, now, backoff);
    RecordJobs(db, j, row, f, now, backoff);
  }

  /** A completion recorded again at any later point, whatever other generations did in
      between, changes no job row and no poison count; it changes no result either exactly
      when its own result row was not purged since. After such a purge the outcome comes
      back once more, marked stale, and nothing else changes. */
  lemma RepeatChangesNothingIff<B(!new)>(c: Config<B>, run: seq<System<B>>, steps: seq<Step<B>>, business: B,
                                         shards: nat, h: nat, i: nat, k: nat)
    requires IsRun(c, run, steps) && run[0] == Init(business, shards) && i < k < |steps|
    requires steps[i].Exec? && steps[i].exec.RecordCompletion? && steps[i].exec.holder == h
    requires steps[k].Exec? && steps[k].exec.RecordCompletion? && steps[k].exec.holder == h
    requires run[k].holders[h] == run[i].holders[h] && JobRetained(run, run[i].holders[h].job)
    ensures var Holder(j, row, Some(f)) := run[i].holders[h];
            var id := ResultOf(j, row.generation);
            && (RepeatedOnly(run[k].db, run[k + 1].db, id) <==> (TerminalOutcome(f).Some? ==> id in run[k].db.inbox))
            && (!RepeatedOnly(run[k].db, run[k + 1].db, id) <==>
                  TerminalOutcome(f).Some? && ResultComesBack(run[k].db, run[k + 1].db, j, row,
                                                              TerminalOutcome(f).value))
  {
    var Holder(j, row, f) := run[i].holders[h];
    JobInvariantOverRuns(c, run, steps, business, shards, j, i);
    FirstRecord(run[i].db, j, row, f.value, steps[i].exec.at, c.poisonBackoff);
    assert run[i + 1].db == RecordFinish(run[i].db, j, row, f.value, steps[i].exec.at, c.poisonBackoff);
    GenerationsOnlyGrow(c, run, steps, j, i + 1, k);
    RepeatedRecord(run[k].db, j, row, f.value, steps[k].exec.at, c.poisonBackoff);
    var id := ResultOf(j, row.generation);
    assert id !in run[k].db.inbox && id in run[k + 1].db.inbox ==> run[k].db.inbox.Keys != run[k + 1].db.inbox.Keys;
  }

  /** How the exception comes about: in any state in which a holder that already recorded a
      terminal outcome is still there, and its result row was handled long enough ago, a
      purge and the repeated completion bring the result back. */
  lemma PurgedResultComesBack<B>(c: Config<B>, s: System<B>, h: nat, before: int, at: int)
    requires h in s.holders && s.holders[h].finish.Some? && TerminalOutcome(s.holders[h].finish.value).Some?
    requires var Holder(j, row, _) := s.holders[h];
             && Spent(s.db.jobs, j, row.generation) && ResultOf(j, row.generation) in s.db.inbox
             && !s.db.inbox[ResultOf(j, row.generation)].state.Pending?
             && s.db.inbox[ResultOf(j, row.generation)].updatedAt < before
    ensures var purge := Runtime(PurgeInboxRows(before));
            var repeat := Exec(RecordCompletion(h, at, false));
            && Enabled(c, s, purge) && Enabled(c, Next(c, s, purge), repeat)
            && var Holder(j, row, Some(f)) := s.holders[h];
               var t := Next(c, s, purge);
               ResultComesBack(t.db, Next(c, t, repeat).db, j, row, TerminalOutcome(f).value)
  {
    var t := Next(c, s, Runtime(PurgeInboxRows(before)));
    var Holder(j, row, Some(f)) := s.holders[h];
    assert ResultOf(j, row.generation) !in t.db.inbox;
    RepeatedRecord(t.db, j, row, f, at, c.poisonBackoff);
  }
}
