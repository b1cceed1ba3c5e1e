/** The committed history is a sequential execution: re-running the handlers one after the
    other over exactly the committed applies rebuilds the business rows, the aggregate rows,
    and every outbox message and job with its content and its standing. Failed, timed out,
    panicked and aborted attempts, crashes and restarts leave nothing behind. */
module EngineReplay {
  import opened Common
  import opened EngineTypes
  import opened EngineTables
  import opened EngineTransactions
  import opened EngineMachine
  import opened EngineOwnership
  import opened EngineDelivery

  /** An outbox row without its clocks, lease and publish count. */
  datatype Message = Message(aggregate: AggregateRef, phaseRef: string, kind: string, topic: string,
                             payload: Bytes, ackSet: Option<map<string, string>>, open: bool)

  /** A job row without its clocks, lease and attempt count. */
  datatype Task = Task(aggregate: AggregateRef, phase: string, action: string, pool: Pool,
                       params: Option<Bytes>, deadlineAt: Option<int>, state: JobState, generation: int,
                       cancelRequested: bool, result: Option<Bytes>)

  /** What a sequential replay carries. */
  datatype Fold<B> = Fold(business: B, aggregates: map<AggregateRef, AggregateRow>,
                          outbox: map<string, Message>, jobs: map<string, Task>)

  // ---------------------------------------------------- the sequential execution

  function Send(outbox: map<string, Message>, a: AggregateRef, ms: seq<OutboxMessage>): map<string, Message> {
    if ms == [] then outbox
    else
      var rest, m := Send(outbox, a, ms[..|ms| - 1]), ms[|ms| - 1];
      if m.id in rest then rest
      else rest[m.id := Message(a, m.phaseRef, m.kind, m.topic, m.payload, m.ackSet, true)]
  }

  predicate Targets(t: CloseTarget, id: string, m: Message) {
    match t
    case CloseRow(target) => target == id
    case ClosePhase(a, phase) => m.aggregate == a && m.phaseRef == phase
    case CloseAggregate(a) => m.aggregate == a
  }

  /** A closed message keeps its names and drops its payload. */
  function Shut(m: Message): Message { m.(open := false, payload := if m.open then [] else m.payload) }

  function Close(outbox: map<string, Message>, ts: seq<CloseTarget>): map<string, Message> {
    map id | id in outbox :: if exists t | t in ts :: Targets(t, id, outbox[id]) then Shut(outbox[id]) else outbox[id]
  }

  /** A recipient confirmed; the last one closes the message. */
  function Confirm(m: Message, peer: string): Message {
    if m.ackSet.None? then m
    else
      var rest := m.ackSet.value - {peer};
      if rest.Keys == {} then Shut(m).(ackSet := Some(rest)) else m.(ackSet := Some(rest))
  }

  function Enqueue(jobs: map<string, Task>, a: AggregateRef, js: seq<JobSpec>): map<string, Task> {
    if js == [] then jobs
    else
      var rest, j := Enqueue(jobs, a, js[..|js| - 1]), js[|js| - 1];
      if j.id in rest then rest
      else rest[j.id := Task(a, j.phase, j.action, j.pool, Some(j.params), j.deadlineAt, JobState.Pending, 0, false,
                             None)]
  }

  predicate Stops(c: JobCancel, own: AggregateRef, id: string, j: Task) {
    match c
    case CancelJob(target) => target == id
    case CancelPhase(phase) => j.aggregate == own && j.phase == phase
    case CancelAggregate(a) => j.aggregate == a
    case CancelAggregatePhase(a, phase) => j.aggregate == a && j.phase == phase
  }

  /** A waiting job is cancelled, a running one asked to stop. */
  function Stop(j: Task): Task {
    j.(state := if j.state.Pending? then JobState.Cancelled else j.state,
       cancelRequested := j.cancelRequested || j.state.Running?)
  }

  function Cancel(jobs: map<string, Task>, cs: seq<JobCancel>, own: AggregateRef): map<string, Task> {
    map id | id in jobs :: if exists c | c in cs :: Stops(c, own, id, jobs[id]) then Stop(jobs[id]) else jobs[id]
  }

  /** Consumed results are dropped with the parameters that led to them. */
  function Clear(jobs: map<string, Task>, ids: seq<string>): map<string, Task> {
    map id | id in jobs ::
      if id in ids && jobs[id].state.Terminal() then jobs[id].(params := None, result := None) else jobs[id]
  }

  /** How a run ended, seen from the job: a request to cancel overrules success and retry. */
  function Ended(j: Task, f: Finish): Task {
    var state :=
      if f.Failed? then JobState.Failed
      else if f.Poisoned? then JobState.Poisoned
      else if j.cancelRequested then JobState.Cancelled
      else if f.Done? then JobState.Done
      else JobState.Pending;
    j.(state := state, result := if f.Done? then Some(f.result) else None)
  }

  /** The engine tables a handler reads, rebuilt from the fold: of the stored rows only
      clocks, leases and counts are taken, and the inbox and the poison table. */
  function Tables(f: Fold, seen: Db): Db {
    seen.(aggregates := f.aggregates,
          outbox := map id | id in f.outbox ::
            OutboxRowOf(f.outbox[id], if id in seen.outbox then Some(seen.outbox[id]) else None),
          jobs := map id | id in f.jobs :: JobRowOf(f.jobs[id], if id in seen.jobs then Some(seen.jobs[id]) else None))
  }

  function OutboxRowOf(m: Message, seen: Option<OutboxRow>): OutboxRow {
    var state := if m.open then Open else Closed;
    match seen
    case None => OutboxRow(m.aggregate, m.phaseRef, m.kind, m.topic, m.payload, m.ackSet, state, 0, 0, 0, 0, 0)
    case Some(row) =>
      OutboxRow(m.aggregate, m.phaseRef, m.kind, m.topic, m.payload, m.ackSet, state,
                row.publishCount, row.nextAt, row.leaseUntil, row.createdAt, row.updatedAt)
  }

  function JobRowOf(j: Task, seen: Option<JobRow>): JobRow {
    match seen
    case None =>
      JobRow(j.aggregate, j.phase, j.action, j.pool, j.params, j.deadlineAt, j.state, j.generation, 0, 0, 0,
             j.cancelRequested, j.result, 0, 0)
    case Some(row) =>
      JobRow(j.aggregate, j.phase, j.action, j.pool, j.params, j.deadlineAt, j.state, j.generation, row.leaseUntil,
             row.attempts, row.nextAt, j.cancelRequested, j.result, row.createdAt, row.updatedAt)
  }

  /** What the handler sees when its apply is run again on the folded state. */
  function Again<B>(f: Fold<B>, input: ApplyInput<B>): ApplyInput<B> {
    var a := input.row.aggregate;
    input.(business := f.business, current := if a in f.aggregates then Some(f.aggregates[a]) else None,
           tables := Tables(f, input.tables))
  }

  /** One entry of the history, re-executed on the folded state. The handler is run again. */
  function ReplayEntry<B>(c: Config<B>, f: Fold<B>, e: Entry<B>): Fold<B> {
    match e
    case Committed(input, _) =>
      var a, reply := input.row.aggregate, c.handler(Again(f, input));
      if !reply.Decided? then f
      else Fold(reply.business,
                f.aggregates[a := UpsertAggregate(Again(f, input).current, reply.effects, input.id)],
                Close(Send(f.outbox, a, reply.effects.outbox), reply.effects.closes),
                Cancel(Enqueue(Clear(f.jobs, reply.cleared), a, reply.effects.jobs), reply.effects.cancels, a))
    case Wrote(b) => f.(business := b)
    case PurgedOutbox(ids) => f.(outbox := f.outbox - ids)
    case PurgedJobs(ids) => f.(jobs := f.jobs - ids)
    case Acknowledged(id, peer) =>
      if id in f.outbox then f.(outbox := f.outbox[id := Confirm(f.outbox[id], peer)]) else f
    case Claimed(id) =>
      if id in f.jobs
      then f.(jobs := f.jobs[id := f.jobs[id].(state := JobState.Running, generation := f.jobs[id].generation + 1)])
      else f
    case LeaseEnded(id, finish) =>
      if id in f.jobs then f.(jobs := f.jobs[id := Ended(f.jobs[id], finish)]) else f
    case Swept(ids) =>
      f.(jobs := map id | id in f.jobs :: if id in ids then f.jobs[id].(state := JobState.Cancelled) else f.jobs[id])
    case _ => f
  }

  function ReplaySeq<B>(c: Config<B>, f: Fold<B>, es: seq<Entry<B>>): Fold<B> {
    if es == [] then f else ReplayEntry(c, ReplaySeq(c, f, es[..|es| - 1]), es[|es| - 1])
  }

  function Replay<B>(c: Config<B>, init: B, log: seq<Entry<B>>): Fold<B> {
    ReplaySeq(c, Fold(init, map[], map[], map[]), log)
  }

  // ----------------------------------------------------------- the stored state

  function MessageOf(row: OutboxRow): Message {
    Message(row.aggregate, row.phaseRef, row.kind, row.topic, row.payload, row.ackSet, row.state.Open?)
  }

  function TaskOf(row: JobRow): Task {
    Task(row.aggregate, row.phase, row.action, row.pool, row.params, row.deadlineAt, row.state, row.generation,
         row.cancelRequested, row.result)
  }

  function Messages(outbox: map<string, OutboxRow>): map<string, Message> {
    map id | id in outbox :: MessageOf(outbox[id])
  }

  function Tasks(jobs: map<string, JobRow>): map<string, Task> {
    map id | id in jobs :: TaskOf(jobs[id])
  }

  function Stored<B>(s: System<B>): Fold<B> {
    Fold(s.business, s.db.aggregates, Messages(s.db.outbox), Tasks(s.db.jobs))
  }

  // ------------------------------------------------------------------- commits

  lemma {:induction false} SendFolds(outbox: map<string, OutboxRow>, a: AggregateRef, ms: seq<OutboxMessage>, now: int)
    ensures Messages(InsertMessages(outbox, a, ms, now)) == Send(Messages(outbox), a, ms)
  {
    if ms != [] {
      SendFolds(outbox, a, ms[..|ms| - 1], now);
      InsertFolds(InsertMessages(outbox, a, ms[..|ms| - 1], now), a, ms[|ms| - 1], now);
    }
  }

  lemma InsertFolds(outbox: map<string, OutboxRow>, a: AggregateRef, m: OutboxMessage, now: int)
    ensures var before := Messages(outbox);
            Messages(InsertMessage(outbox, a, m, now))
            == if m.id in before then before
               else before[m.id := Message(a, m.phaseRef, m.kind, m.topic, m.payload, m.ackSet, true)]
  {
  }

  lemma ClosesAlike(ts: seq<CloseTarget>, id: string, row: OutboxRow)
    ensures (exists i | 0 <= i < |ts| :: ClosesRow(ts[i], id, row)) <==>
            (exists t | t in ts :: Targets(t, id, MessageOf(row)))
  {
    forall i | 0 <= i < |ts| ensures ts[i] in ts
        && (ClosesRow(ts[i], id, row) <==> Targets(ts[i], id, MessageOf(row))) {
    }
  }

  lemma CloseFolds(outbox: map<string, OutboxRow>, ts: seq<CloseTarget>, now: int)
    ensures Messages(CloseMessages(outbox, ts, now)) == Close(Messages(outbox), ts)
  {
    forall id | id in outbox ensures MessageOf(CloseMessages(outbox, ts, now)[id]) == Close(Messages(outbox), ts)[id] {
      ClosesAlike(ts, id, outbox[id]);
    }
  }

  lemma {:induction false} EnqueueFolds(jobs: map<string, JobRow>, a: AggregateRef, js: seq<JobSpec>, now: int)
    ensures Tasks(InsertJobs(jobs, a, js, now)) == Enqueue(Tasks(jobs), a, js)
  {
    if js != [] {
      EnqueueFolds(jobs, a, js[..|js| - 1], now);
      EnqueueOne(InsertJobs(jobs, a, js[..|js| - 1], now), a, js[|js| - 1], now);
    }
  }

  lemma EnqueueOne(jobs: map<string, JobRow>, a: AggregateRef, j: JobSpec, now: int)
    ensures var before := Tasks(jobs);
            Tasks(InsertJob(jobs, a, j, now))
            == if j.id in before then before
               else before[j.id := Task(a, j.phase, j.action, j.pool, Some(j.params), j.deadlineAt, JobState.Pending, 0,
                                        false, None)]
  {
  }

  lemma StopsAlike(cs: seq<JobCancel>, own: AggregateRef, id: string, row: JobRow)
    ensures (exists i | 0 <= i < |cs| :: CancelsRow(cs[i], own, id, row))
            <==> (exists c | c in cs :: Stops(c, own, id, TaskOf(row)))
  {
    forall i | 0 <= i < |cs|
      ensures cs[i] in cs && (CancelsRow(cs[i], own, id, row) <==> Stops(cs[i], own, id, TaskOf(row)))
    {
    }
  }

  lemma CancelFolds(jobs: map<string, JobRow>, cs: seq<JobCancel>, own: AggregateRef, now: int)
    ensures Tasks(CancelJobs(jobs, cs, own, now)) == Cancel(Tasks(jobs), cs, own)
  {
    forall id | id in jobs ensures TaskOf(CancelJobs(jobs, cs, own, now)[id]) == Cancel(Tasks(jobs), cs, own)[id] {
      StopsAlike(cs, own, id, jobs[id]);
      assert TaskOf(CancelRow(jobs[id], now)) == Stop(TaskOf(jobs[id]));
    }
  }

  lemma ClearFolds(jobs: map<string, JobRow>, ids: seq<string>, now: int)
    ensures Tasks(ClearResults(jobs, ids, now)) == Clear(Tasks(jobs), ids)
  {
  }

  /** On the stored state the rebuilt tables are the tables. */
  lemma TablesRebuilt<B>(s: System<B>)
    ensures Tables(Stored(s), s.db) == s.db
  {
    var t := Tables(Stored(s), s.db);
    assert t.outbox == s.db.outbox;
    assert t.jobs == s.db.jobs;
  }

  /** A commit is one replayed entry. */
  lemma CommitFolds<B>(c: Config<B>, s: System<B>, w: nat, at: int, recheckAt: int, oracle: nat)
    requires WorkerOf(s, w).Loaded? && c.handler(InputOf(s, w, at, oracle)).Decided?
    ensures var t := ApplyNext(c, s, w, at, recheckAt, oracle);
            var input := InputOf(s, w, at, oracle);
            Stored(t) == ReplayEntry(c, Stored(s), Committed(input, c.handler(input)))
  {
    var input := InputOf(s, w, at, oracle);
    var reply := c.handler(input);
    var a, e := input.row.aggregate, reply.effects;
    InsertAllKeepsAggregates(s.db, reply.recorded, at);
    var jobs := ClearResults(s.db.jobs, reply.cleared, at);
    ClearFolds(s.db.jobs, reply.cleared, at);
    SendFolds(s.db.outbox, a, e.outbox, at);
    CloseFolds(InsertMessages(s.db.outbox, a, e.outbox, at), e.closes, at);
    EnqueueFolds(jobs, a, e.jobs, at);
    CancelFolds(InsertJobs(jobs, a, e.jobs, at), e.cancels, a, at);
    TablesRebuilt(s);
    assert Again(Stored(s), input) == input;
  }

  // --------------------------------------------------------------- other steps

  lemma ReplayOne<B>(c: Config<B>, f: Fold<B>, e: Entry<B>)
    ensures ReplaySeq(c, f, [e]) == ReplayEntry(c, f, e)
  {
    assert [e][..0] == [];
  }

  lemma {:induction false} ReplayAppend<B>(c: Config<B>, f: Fold<B>, log: seq<Entry<B>>, es: seq<Entry<B>>)
    ensures ReplaySeq(c, f, log + es) == ReplaySeq(c, ReplaySeq(c, f, log), es)
  {
    if es == [] {
      assert log + es == log;
    } else {
      var front := es[..|es| - 1];
      ReplayAppend(c, f, log, front);
      assert (log + es)[..|log + es| - 1] == log + front;
    }
  }

  /** Entries that say nothing about the folded tables. */
  predicate Neutral<B>(e: Entry<B>) { e.Attempted? || e.Rejected? || e.AckSent? || e.JobEnded? || e.ResultRecorded? }

  lemma {:induction false} NeutralFold<B>(c: Config<B>, f: Fold<B>, es: seq<Entry<B>>)
    requires forall i | 0 <= i < |es| :: Neutral(es[i])
    ensures ReplaySeq(c, f, es) == f
  {
    if es != [] { NeutralFold(c, f, es[..|es| - 1]); }
  }

  lemma PurgeOutboxFolds(outbox: map<string, OutboxRow>, before: int)
    ensures Messages(PurgeOutbox(outbox, before)) == Messages(outbox) - (outbox.Keys - PurgeOutbox(outbox, before).Keys)
  {
  }

  lemma PurgeJobsFolds(jobs: map<string, JobRow>, before: int)
    ensures Tasks(PurgeJobs(jobs, before)) == Tasks(jobs) - (jobs.Keys - PurgeJobs(jobs, before).Keys)
  {
  }

  lemma ResetFolds(db: Db)
    ensures Messages(ResetOutboxLeases(db.outbox)) == Messages(db.outbox)
    ensures Tasks(ResetJobLeases(db.jobs)) == Tasks(db.jobs)
  {
  }

  /** A runtime step leaves one entry at most. */
  lemma RuntimeEntry<B>(c: Config<B>, f: Fold<B>, db: Db, r: RuntimeStep)
    ensures var es := RuntimeLog<B>(db, r);
            |es| <= 1 && ReplaySeq(c, f, es) == if es == [] then f else ReplayEntry(c, f, es[0])
  {
    var es := RuntimeLog<B>(db, r);
    if es != [] {
      assert es == [es[0]];
      ReplayOne(c, f, es[0]);
    }
  }

  lemma RuntimeFolds<B>(c: Config<B>, s: System<B>, r: RuntimeStep)
    ensures Stored(Next(c, s, Runtime(r))) == ReplaySeq(c, Stored(s), RuntimeLog<B>(s.db, r))
  {
    RuntimeEntry(c, Stored(s), s.db, r);
    match r
    case PurgeOutboxRows(before) => PurgeOutboxFolds(s.db.outbox, before);
    case PurgeJobRows(before) => PurgeJobsFolds(s.db.jobs, before);
    case ResetLeases => ResetFolds(s.db);
    case _ =>
  }

  // ------------------------------------------------------------------- executor

  lemma ClaimFolds(jobs: map<string, JobRow>, id: string, leaseUntil: int, at: int)
    requires id in jobs
    ensures var before := Tasks(jobs);
            Tasks(jobs[id := ClaimedRow(jobs[id], leaseUntil, at)])
            == before[id := before[id].(state := JobState.Running, generation := before[id].generation + 1)]
  {
  }

  lemma RenewFolds(jobs: map<string, JobRow>, id: string, generation: int, leaseUntil: int, at: int)
    ensures Tasks(RenewLease(jobs, id, generation, leaseUntil, at)) == Tasks(jobs)
  {
  }

  lemma FinishFolds(jobs: map<string, JobRow>, id: string, generation: int, f: Finish, now: int)
    ensures Tasks(FinishJob(jobs, id, generation, f, now))
            == if Holds(jobs, id, generation) then Tasks(jobs)[id := Ended(Tasks(jobs)[id], f)] else Tasks(jobs)
  {
    if Holds(jobs, id, generation) {
      assert TaskOf(FinishedRow(jobs[id], f, now)) == Ended(TaskOf(jobs[id]), f);
      assert Tasks(jobs[id := FinishedRow(jobs[id], f, now)])
             == Tasks(jobs)[id := TaskOf(FinishedRow(jobs[id], f, now))];
    }
  }

  lemma SweepFolds(jobs: map<string, JobRow>, order: seq<string>, now: int)
    requires SweepOrder(jobs, order, now)
    ensures var before, ids := Tasks(jobs), set id | id in order;
            Tasks(SweepJobs(jobs, now))
            == map id | id in before :: if id in ids then before[id].(state := JobState.Cancelled) else before[id]
  {
  }

  lemma ReportKeepsTables(db: Db, job: string, row: JobRow, outcome: FinishOutcome, f: Finish, now: int)
    ensures ReportResult(db, job, row, outcome, f, now).jobs == db.jobs
    ensures ReportResult(db, job, row, outcome, f, now).outbox == db.outbox
    ensures ReportResult(db, job, row, outcome, f, now).aggregates == db.aggregates
  {
  }

  lemma RecordKeepsTables(db: Db, job: string, row: JobRow, f: Finish, now: int, backoff: int -> int)
    ensures var after := RecordFinish(db, job, row, f, now, backoff);
            && after.aggregates == db.aggregates && after.outbox == db.outbox
            && after.jobs == FinishJob(db.jobs, job, row.generation, f, now)
  {
    var outcome := FinishOutcomeOf(db.jobs, job, row.generation, f);
    ReportKeepsTables(db, job, row, outcome, f, now);
    var mid := ReportResult(db, job, row, outcome, f, now);
    assert FinishRows(mid, job, row, f, now, backoff).jobs == FinishJob(db.jobs, job, row.generation, f, now);
  }

  lemma LeaseEntry<B>(c: Config<B>, f: Fold<B>, db: Db, holders: map<nat, Holder>, x: ExecStep)
    requires ExecEnabled(db, holders, x)
    ensures var es := LeaseEntries<B>(db, holders, x);
            |es| <= 1 && ReplaySeq(c, f, es) == if es == [] then f else ReplayEntry(c, f, es[0])
  {
    var es := LeaseEntries<B>(db, holders, x);
    if es != [] {
      assert es == [es[0]];
      ReplayOne(c, f, es[0]);
    }
  }

  /** Only the job table of the fold changes, and as the lease entries of the step say. */
  lemma ExecTables<B>(c: Config<B>, f: Fold<B>, db: Db, holders: map<nat, Holder>, x: ExecStep, backoff: int -> int)
    requires ExecEnabled(db, holders, x) && f.jobs == Tasks(db.jobs)
    ensures var after := ExecDb(db, holders, x, backoff);
            && after.aggregates == db.aggregates && after.outbox == db.outbox
            && ReplaySeq(c, f, LeaseEntries<B>(db, holders, x)) == f.(jobs := Tasks(after.jobs))
  {
    LeaseEntry(c, f, db, holders, x);
    match x
    case Claim(_, job, leaseUntil, at) => ClaimFolds(db.jobs, job, leaseUntil, at);
    case Renew(h, leaseUntil, at) => RenewFolds(db.jobs, holders[h].job, holders[h].row.generation, leaseUntil, at);
    case RecordCompletion(h, at, _) =>
      var Holder(job, row, Some(finish)) := holders[h];
      RecordKeepsTables(db, job, row, finish, at, backoff);
      FinishFolds(db.jobs, job, row.generation, finish, at);
    case SweepCancelled(order, at) =>
      InsertAllKeepsAggregates(db, SweepEvents(db.jobs, order), at);
      SweepFolds(db.jobs, order, at);
    case _ =>
  }

  lemma {:induction false} SweepEntriesNeutral<B>(db: Db, order: seq<string>)
    requires forall id | id in order :: id in db.jobs
    ensures forall i | 0 <= i < |SweepEntries<B>(db, order)| :: Neutral(SweepEntries<B>(db, order)[i])
  {
    if order != [] { SweepEntriesNeutral<B>(db, order[..|order| - 1]); }
  }

  lemma ResultsNeutral<B>(db: Db, holders: map<nat, Holder>, x: ExecStep)
    requires ExecEnabled(db, holders, x)
    ensures forall i | 0 <= i < |ResultEntries<B>(db, holders, x)| :: Neutral(ResultEntries<B>(db, holders, x)[i])
  {
    if x.SweepCancelled? { SweepEntriesNeutral<B>(db, x.order); }
  }

  lemma ExecFolds<B>(c: Config<B>, s: System<B>, x: ExecStep)
    requires ExecEnabled(s.db, s.holders, x)
    ensures Stored(Next(c, s, Exec(x))) == ReplaySeq(c, Stored(s), ExecLog<B>(s.db, s.holders, x))
  {
    var leases, results := LeaseEntries<B>(s.db, s.holders, x), ResultEntries<B>(s.db, s.holders, x);
    ExecTables(c, Stored(s), s.db, s.holders, x, c.poisonBackoff);
    ReplayAppend(c, Stored(s), leases, results);
    ResultsNeutral<B>(s.db, s.holders, x);
    NeutralFold(c, ReplaySeq(c, Stored(s), leases), results);
  }

  // ---------------------------------------------------------- workers, publisher

  /** A worker step that commits nothing leaves the folded tables alone. */
  lemma WorkQuiet<B>(c: Config<B>, s: System<B>, w: nat, k: WorkStep)
    requires WorkEnabled(c, s, w, k) && !(k.Apply? && c.handler(InputOf(s, w, k.at, k.oracle)).Decided?)
    ensures var t := WorkNext(c, s, w, k);
            && t.business == s.business && t.db.aggregates == s.db.aggregates
            && t.db.outbox == s.db.outbox && t.db.jobs == s.db.jobs
    ensures forall i | 0 <= i < |NewEntries(c, s, Work(w, k))| :: Neutral(NewEntries(c, s, Work(w, k))[i])
  {
  }

  lemma WorkFolds<B>(c: Config<B>, s: System<B>, w: nat, k: WorkStep)
    requires WorkEnabled(c, s, w, k)
    ensures Stored(WorkNext(c, s, w, k)) == ReplaySeq(c, Stored(s), NewEntries(c, s, Work(w, k)))
  {
    if k.Apply? && c.handler(InputOf(s, w, k.at, k.oracle)).Decided? {
      CommitFolds(c, s, w, k.at, k.recheckAt, k.oracle);
      var input := InputOf(s, w, k.at, k.oracle);
      ReplayOne(c, Stored(s), Committed(input, c.handler(input)));
    } else {
      WorkQuiet(c, s, w, k);
      NeutralFold(c, Stored(s), NewEntries(c, s, Work(w, k)));
    }
  }

  lemma PublishFolds(outbox: map<string, OutboxRow>, p: PublishStep)
    requires PublishEnabled(outbox, p)
    ensures var before := Messages(outbox);
            Messages(PublishNext(outbox, p))
            == if p.Acknowledge? then before[p.message := Confirm(before[p.message], p.peer)] else before
  {
    if p.Acknowledge? {
      var row := outbox[p.message];
      assert MessageOf(AcknowledgeRow(row, p.peer, p.at)) == Confirm(MessageOf(row), p.peer);
    }
  }

  lemma PublishStepFolds<B>(c: Config<B>, s: System<B>, p: PublishStep)
    requires PublishEnabled(s.db.outbox, p)
    ensures Stored(Next(c, s, Publish(p))) == ReplaySeq(c, Stored(s), PublishLog<B>(p))
  {
    PublishFolds(s.db.outbox, p);
    if p.Acknowledge? { ReplayOne(c, Stored(s), Acknowledged(p.message, p.peer)); }
  }

  lemma SubmitFolds<B>(c: Config<B>, s: System<B>, u: SubmitStep)
    requires SubmitEnabled(s.submitters, u)
    ensures Stored(Next(c, s, Submit(u))) == ReplaySeq(c, Stored(s), SubmitLog<B>(s.submitters, u))
  {
    SubmitPassive(s.db, s.submitters, u);
    NeutralFold(c, Stored(s), SubmitLog<B>(s.submitters, u));
  }

  lemma StepFolds<B>(c: Config<B>, s: System<B>, step: Step<B>)
    requires Enabled(c, s, step)
    ensures Stored(Next(c, s, step)) == ReplaySeq(c, Stored(s), NewEntries(c, s, step))
  {
    match step
    case Submit(u) => SubmitFolds(c, s, u);
    case Runtime(r) => RuntimeFolds(c, s, r);
    case Work(w, k) => WorkFolds(c, s, w, k);
    case Exec(x) => ExecFolds(c, s, x);
    case Publish(p) => PublishStepFolds(c, s, p);
    case Write(b) => ReplayOne(c, Stored(s), Wrote(b));
    case Crash(_) =>
  }

  /** In every state of every run, what is stored is the sequential replay of the history. */
  lemma {:induction false} StoredIsReplay<B(!new)>(c: Config<B>, run: seq<System<B>>, steps: seq<Step<B>>, business: B,
                                                   shards: nat)
    requires IsRun(c, run, steps) && run[0] == Init(business, shards)
    ensures Stored(run[|steps|]) == Replay(c, business, run[|steps|].log)
  {
    if steps != [] {
      var n := |steps| - 1;
      StoredIsReplay(c, run[..n + 1], steps[..n], business, shards);
      StepFolds(c, run[n], steps[n]);
      LogGrows(c, run[n], steps[n]);
      ReplayAppend(c, Fold(business, map[], map[], map[]), run[n].log, NewEntries(c, run[n], steps[n]));
    }
  }
}
