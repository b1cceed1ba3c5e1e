/** What one committed transaction of the engine writes: the commit of an apply
    (crates/engine/src/worker.rs), a job completion and the cancel sweep
    (crates/engine/src/jobs.rs). */
module EngineTransactions {
  import opened Common
  import opened EngineTypes
  import opened EngineTables

  /** References the commit wakes: those the handler names, and the aggregate's own
      when its status or phase changed. */
  function CommitRefs(a: AggregateRef, current: Option<AggregateRow>, e: Effects, event: EventId): seq<string> {
    e.wakes + (if StatusOrPhaseChanged(current, UpsertAggregate(current, e, event)) then [a.WakeRef()] else [])
  }

  /** The rows after a decided apply. Closes follow the sends and cancels follow the
      enqueues; waiters are woken before the event itself is marked. */
  function CommitApply(db: Db, a: AggregateRef, id: EventId, kind: string, e: Effects,
                       waiting: Option<string>, recheckAt: int, now: int): Db
  {
    var current := FindAggregate(db, a);
    var woken := Wake(db.inbox, CommitRefs(a, current, e, id), now);
    Db(if waiting.None? then MarkApplied(woken, id, now) else MarkWaiting(woken, id, waiting.value, recheckAt, now),
       db.nextSeq,
       db.aggregates[a := UpsertAggregate(current, e, id)],
       db.poison - {PoisonKey(a, kind)},
       CloseMessages(InsertMessages(db.outbox, a, e.outbox, now), e.closes, now),
       CancelJobs(InsertJobs(db.jobs, a, e.jobs, now), e.cancels, a, now))
  }

  /** Engine rows the handler writes itself inside the apply transaction: events it
      records and job results it has consumed. */
  function HandlerWrites(db: Db, recorded: seq<NewEvent>, cleared: seq<string>, now: int): Db {
    var db1 := InsertInboxAll(db, recorded, now);
    db1.(jobs := ClearResults(db1.jobs, cleared, now))
  }

  // -------------------------------------------------------------- completion

  /** What the aggregate is told, if anything. */
  function Reported(outcome: FinishOutcome, f: Finish): Option<JobOutcome> {
    match outcome
    case Finished(state) =>
      if state.Done? && f.Done? then Some(JobOutcome.Done(f.result))
      else if state.Cancelled? then Some(JobOutcome.Cancelled)
      else if state.Failed? && f.Failed? then Some(JobOutcome.Failed(f.error))
      else if state.Poisoned? && f.Poisoned? then Some(JobOutcome.Poisoned(f.error))
      else None
    case Stale(_, _) => TerminalOutcome(f)
    case Missing => None
  }

  /** The external result a holder reached, `None` for a retry. */
  function TerminalOutcome(f: Finish): Option<JobOutcome> {
    match f
    case Done(r) => Some(JobOutcome.Done(r))
    case Failed(error) => Some(JobOutcome.Failed(error))
    case Poisoned(error) => Some(JobOutcome.Poisoned(error))
    case Retry(_, _) => None
  }

  function ResultEvent(job: string, row: JobRow, generation: int, stale: bool, outcome: JobOutcome): NewEvent {
    NewEvent(ResultOf(job, generation), row.aggregate, JOB_RESULT_KIND, Source.Job,
             Result(JobResult(job, row.phase, row.action, generation, stale, outcome)), None)
  }

  /** The job row and the poison of its action after a completion. */
  function FinishRows(db: Db, job: string, row: JobRow, f: Finish, now: int, backoff: int -> int): Db {
    var outcome := FinishOutcomeOf(db.jobs, job, row.generation, f);
    var db1 := db.(jobs := FinishJob(db.jobs, job, row.generation, f, now));
    var key := PoisonKey(row.aggregate, row.action);
    if outcome.Finished? && f.Poisoned? then MarkPoison(db1, key, now, backoff)
    else if outcome.Finished? then ReleasePoison(db1, key)
    else db1
  }

  /** The result row a completion leaves in the inbox. */
  function ReportResult(db: Db, job: string, row: JobRow, outcome: FinishOutcome, f: Finish, now: int): Db {
    var reported := Reported(outcome, f);
    if reported.None? then db
    else InsertInbox(db, ResultEvent(job, row, row.generation, !outcome.Finished?, reported.value), now)
  }

  /** Record a completion of the holder that claimed `row`: one transaction. */
  function RecordFinish(db: Db, job: string, row: JobRow, f: Finish, now: int, backoff: int -> int): Db {
    var outcome := FinishOutcomeOf(db.jobs, job, row.generation, f);
    FinishRows(ReportResult(db, job, row, outcome, f, now), job, row, f, now, backoff)
  }

  // ------------------------------------------------------------------- sweep

  function SweepEvents(jobs: map<string, JobRow>, order: seq<string>): seq<NewEvent>
    requires forall id | id in order :: id in jobs
  {
    seq(|order|, i requires 0 <= i < |order| =>
      ResultEvent(order[i], jobs[order[i]], jobs[order[i]].generation, false, JobOutcome.Cancelled))
  }

  predicate NoDuplicates<T(==)>(s: seq<T>) {
    forall i, j | 0 <= i < j < |s| :: s[i] != s[j]
  }

  /** `order` lists the lapsed cancelled jobs once each, in the order the database returned them. */
  predicate SweepOrder(jobs: map<string, JobRow>, order: seq<string>, now: int) {
    && NoDuplicates(order)
    && (forall id | id in order :: id in jobs && LapsedCancelled(jobs[id], now))
    && (forall id | id in jobs :: LapsedCancelled(jobs[id], now) ==> id in order)
  }

  function Sweep(db: Db, order: seq<string>, now: int): Db
    requires forall id | id in order :: id in db.jobs
  {
    InsertInboxAll(db, SweepEvents(db.jobs, order), now).(jobs := SweepJobs(db.jobs, now))
  }
}
