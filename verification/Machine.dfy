/** The execution engine as a step machine. One step is one committed write of the
    single-writer database, or one move of the volatile state beside it: a worker
    between two statements, a job holder, a crash. Steps interleave freely. */
module EngineMachine {
  import opened Common
  import opened EngineTypes
  import opened EngineTables
  import opened EngineTransactions

  // ---------------------------------------------------------------- handlers

  datatype Verdict = Accept | Park(ref: string)

  /** What one run of a handler came to. Only `Decided` is committed. */
  datatype Reply<B> =
    | Decided(verdict: Verdict, effects: Effects, business: B, recorded: seq<NewEvent>, cleared: seq<string>)
    | Refused
    | Transient
    | InvariantBroken
    | TimedOut
    | Panicked

  /** Everything a handler can see. `tables` are the engine tables at the start of its
      transaction; `oracle` stands for what lies outside the database. */
  datatype ApplyInput<B> = ApplyInput(business: B, current: Option<AggregateRow>, id: EventId, row: InboxRow,
                                      now: int, tables: Db, oracle: nat)

  datatype Config<!B> = Config(handles: string -> bool,
                               handler: ApplyInput<B> -> Reply<B>, shardKey: AggregateRef -> nat,
                               poisonBackoff: int -> int, mayWrite: (B, B) -> bool)

  // ------------------------------------------------------------------- state

  /** Where the worker of a shard stands between two database statements. */
  datatype Worker =
    | Idle
    | Loaded(id: EventId, row: InboxRow)
    | Retrying(id: EventId, row: InboxRow)
    | Refusing(id: EventId, row: InboxRow)
    | Releasing(id: EventId, row: InboxRow)
    | Poisoning(id: EventId, row: InboxRow)
    | Acking(id: EventId, acks: seq<AckTarget>)
  {
    /** The worker is about to write the inbox row `id`. */
    predicate Active() { Loaded? || Retrying? || Refusing? || Poisoning? }
  }

  /** A process-local holder of a claimed job: the row it claimed and, once the runner
      ended, what it will record. */
  datatype Holder = Holder(job: string, row: JobRow, finish: Option<Finish>)

  /** A producer between two statements of a submission: its insert was ignored, or it has
      read the known row and may have to re-arm it and to ACK again. */
  datatype Submitter = Ignored(event: NewEvent) | Seen(event: NewEvent, failed: bool, ackAgain: bool)

  datatype Entry<B> =
    | Committed(input: ApplyInput<B>, reply: Reply<B>)
    | Attempted(id: EventId)
    | Rejected(id: EventId)
    | AckSent(id: EventId, target: AckTarget)
    | Notified(refs: seq<string>, at: int)
    | Wrote(business: B)
    | PurgedInbox(events: set<EventId>)
    | PurgedOutbox(ids: set<string>)
    | PurgedJobs(ids: set<string>)
    | Claimed(job: string)
    | LeaseEnded(job: string, finish: Finish)
    | Swept(jobs: set<string>)
    | JobEnded(job: string, generation: int)
    | ResultRecorded(event: NewEvent)
    | Acknowledged(message: string, peer: string)

  /** The durable tables and business rows, the volatile workers, holders and submitters,
      and the history of what was committed or sent. */
  datatype System<B> = System(db: Db, business: B, shards: nat, workers: map<nat, Worker>,
                              holders: map<nat, Holder>, submitters: map<nat, Submitter>, log: seq<Entry<B>>)

  /** One statement of a submission (crates/engine/src/runtime.rs). */
  datatype SubmitStep =
    | InsertEvent(call: nat, event: NewEvent, at: int)
    | ReadKnown(call: nat)
    | RearmKnown(call: nat, at: int)
    | AnswerKnown(call: nat, sent: bool)

  /** Timers and housekeeping (crates/engine/src/runtime.rs). */
  datatype RuntimeStep =
    | Notify(refs: seq<string>, at: int)
    | Recheck(at: int)
    | RearmAll(at: int)
    | ResetLeases
    | ClearPoison(key: PoisonKey)
    | PurgeInboxRows(before: int)
    | PurgeRejectedRows(before: int)
    | PurgeOutboxRows(before: int)
    | PurgeJobRows(before: int)

  /** One statement of a shard's worker (crates/engine/src/worker.rs). */
  datatype WorkStep =
    | Load(id: EventId, at: int)
    | Apply(at: int, recheckAt: int, oracle: nat)
    | AbortApply
    | FailUnhandled(at: int)
    | ScheduleRetry(nextAt: int, at: int)
    | MarkRefused(at: int)
    | ReleaseKind
    | MarkPoisonedEvent(at: int)
    | DispatchAcks(room: seq<bool>)

  /** The executor and its holders (crates/engine/src/jobs.rs). */
  datatype ExecStep =
    | Claim(holder: nat, job: string, leaseUntil: int, at: int)
    | Renew(holder: nat, leaseUntil: int, at: int)
    | EndRun(holder: nat, finish: Finish)
    | RecordCompletion(holder: nat, at: int, seen: bool)
    | DropHolder(holder: nat)
    | SweepCancelled(order: seq<string>, at: int)

  /** The publisher and received ACKs (crates/engine/src/outbox.rs). */
  datatype PublishStep =
    | LeaseMessage(message: string, leaseUntil: int, at: int)
    | Published(message: string, ok: bool, nextAt: int, at: int)
    | Acknowledge(message: string, peer: string, delivery: string, at: int)

  datatype Step<B> =
    | Submit(submit: SubmitStep)
    | Runtime(runtime: RuntimeStep)
    | Work(worker: nat, work: WorkStep)
    | Exec(exec: ExecStep)
    | Publish(publish: PublishStep)
    | Write(business: B)
    | Crash(shards: nat)

  function Init<B>(business: B, shards: nat): System<B> {
    System(NO_ROWS, business, shards, map[], map[], map[], [])
  }

  function WorkerOf<B>(s: System<B>, w: nat): Worker {
    if w in s.workers then s.workers[w] else Idle
  }

  function Shard<B>(c: Config<B>, a: AggregateRef, shards: nat): nat {
    c.shardKey(a) % (if shards == 0 then 1 else shards)
  }

  // ------------------------------------------------------------- submissions

  /** Producers derive ids from content; only the executor records job results. */
  predicate ProducerEvent(e: NewEvent) { e.id.Named? }

  predicate SubmitEnabled(submitters: map<nat, Submitter>, u: SubmitStep) {
    match u
    case InsertEvent(k, e, _) => k !in submitters && ProducerEvent(e)
    case ReadKnown(k) => k in submitters && submitters[k].Ignored?
    case RearmKnown(k, _) => k in submitters && submitters[k].Seen? && submitters[k].failed
    case AnswerKnown(k, _) => k in submitters && submitters[k].Seen? && !submitters[k].failed
  }

  function SubmitDb(db: Db, submitters: map<nat, Submitter>, u: SubmitStep): Db
    requires SubmitEnabled(submitters, u)
  {
    match u
    case InsertEvent(_, e, at) => InsertOrIgnore(db, e, at)
    case RearmKnown(k, at) => RearmFailed(db, submitters[k].event.id, at)
    case _ => db
  }

  /** A submission whose row was purged before it could be read fails. */
  function SubmitNext(db: Db, submitters: map<nat, Submitter>, u: SubmitStep): map<nat, Submitter>
    requires SubmitEnabled(submitters, u)
  {
    match u
    case InsertEvent(k, e, _) => if e.id in db.inbox then submitters[k := Ignored(e)] else submitters
    case ReadKnown(k) =>
      var e := submitters[k].event;
      if e.id !in db.inbox then submitters - {k}
      else submitters[k := Seen(e, db.inbox[e.id].state.Failed?, AckAgain(db.inbox[e.id]))]
    case RearmKnown(k, _) => submitters[k := submitters[k].(failed := false)]
    case AnswerKnown(k, _) => submitters - {k}
  }

  function SubmitLog<B>(submitters: map<nat, Submitter>, u: SubmitStep): seq<Entry<B>>
    requires SubmitEnabled(submitters, u)
  {
    if u.AnswerKnown? && u.sent && submitters[u.call].ackAgain && submitters[u.call].event.ack.Some?
    then [AckSent(submitters[u.call].event.id, submitters[u.call].event.ack.value)]
    else []
  }

  // ----------------------------------------------------------------- runtime

  function RuntimeDb(db: Db, r: RuntimeStep): Db {
    match r
    case Notify(refs, at) => db.(inbox := Wake(db.inbox, refs, at))
    case Recheck(at) => db.(inbox := RearmWaiting(db.inbox, at))
    case RearmAll(at) => db.(inbox := RearmPending(db.inbox, at))
    case ResetLeases => db.(outbox := ResetOutboxLeases(db.outbox), jobs := ResetJobLeases(db.jobs))
    case ClearPoison(key) => ReleasePoison(db, key)
    case PurgeInboxRows(before) => db.(inbox := PurgeInbox(db.inbox, before))
    case PurgeRejectedRows(before) => db.(inbox := PurgeRejectedNetwork(db.inbox, before))
    case PurgeOutboxRows(before) => db.(outbox := PurgeOutbox(db.outbox, before))
    case PurgeJobRows(before) => db.(jobs := PurgeJobs(db.jobs, before))
  }

  function RuntimeLog<B>(db: Db, r: RuntimeStep): seq<Entry<B>> {
    match r
    case Notify(refs, at) => [Notified(refs, at)]
    case PurgeInboxRows(_) => [PurgedInbox(db.inbox.Keys - RuntimeDb(db, r).inbox.Keys)]
    case PurgeRejectedRows(_) => [PurgedInbox(db.inbox.Keys - RuntimeDb(db, r).inbox.Keys)]
    case PurgeOutboxRows(_) => [PurgedOutbox(db.outbox.Keys - RuntimeDb(db, r).outbox.Keys)]
    case PurgeJobRows(_) => [PurgedJobs(db.jobs.Keys - RuntimeDb(db, r).jobs.Keys)]
    case _ => []
  }

  // ----------------------------------------------------------------- workers

  predicate WorkEnabled<B>(c: Config<B>, s: System<B>, w: nat, k: WorkStep) {
    match k
    case Load(id, at) =>
      && WorkerOf(s, w).Idle? && Runnable(s.db, id, at) && Shard(c, s.db.inbox[id].aggregate, s.shards) == w
      && (forall e | e in s.db.inbox :: Runnable(s.db, e, at) && Shard(c, s.db.inbox[e].aggregate, s.shards) == w
                                        ==> s.db.inbox[id].seqNo <= s.db.inbox[e].seqNo)
    case Apply(at, _, oracle) =>
      && WorkerOf(s, w).Loaded? && c.handles(WorkerOf(s, w).row.aggregate.kind)
      && (var reply := c.handler(InputOf(s, w, at, oracle));
          reply.Decided? ==> forall e | e in reply.recorded :: ProducerEvent(e))
    case AbortApply => WorkerOf(s, w).Loaded?
    case FailUnhandled(_) => WorkerOf(s, w).Loaded? && !c.handles(WorkerOf(s, w).row.aggregate.kind)
    case ScheduleRetry(_, _) => WorkerOf(s, w).Retrying?
    case MarkRefused(_) => WorkerOf(s, w).Refusing?
    case ReleaseKind => WorkerOf(s, w).Releasing?
    case MarkPoisonedEvent(_) => WorkerOf(s, w).Poisoning?
    case DispatchAcks(_) => WorkerOf(s, w).Acking?
  }

  function InputOf<B>(s: System<B>, w: nat, at: int, oracle: nat): ApplyInput<B>
    requires WorkerOf(s, w).Loaded?
  {
    var row := WorkerOf(s, w).row;
    ApplyInput(s.business, FindAggregate(s.db, row.aggregate), WorkerOf(s, w).id, row, at, s.db, oracle)
  }

  function CommitReply<B>(db: Db, input: ApplyInput<B>, reply: Reply<B>, recheckAt: int): Db
    requires reply.Decided?
  {
    CommitApply(HandlerWrites(db, reply.recorded, reply.cleared, input.now), input.row.aggregate, input.id,
                input.row.kind, reply.effects,
                if reply.verdict.Park? then Some(reply.verdict.ref) else None, recheckAt, input.now)
  }

  /** The ACK an event asks for itself. */
  function OwnAck(row: InboxRow): seq<AckTarget> { if row.ack.Some? then [row.ack.value] else [] }

  /** What a commit hands to the ACK channel: the targets the handler named, then the event's own. */
  function CommitAcks(e: Effects, row: InboxRow): seq<AckTarget> { e.acks + OwnAck(row) }

  /** The ACKs that found room in the channel; the others are dropped. */
  function SentAcks(acks: seq<AckTarget>, room: seq<bool>): seq<AckTarget> {
    if acks == [] then []
    else
      var n := |acks| - 1;
      SentAcks(acks[..n], room) + if n < |room| && room[n] then [acks[n]] else []
  }

  function AckEntries<B>(id: EventId, acks: seq<AckTarget>, room: seq<bool>): seq<Entry<B>> {
    var sent := SentAcks(acks, room);
    seq(|sent|, i requires 0 <= i < |sent| => AckSent(id, sent[i]))
  }

  function SetWorker<B>(s: System<B>, w: nat, to: Worker): System<B> {
    s.(workers := s.workers[w := to])
  }

  function Note<B>(s: System<B>, es: seq<Entry<B>>): System<B> {
    s.(log := s.log + es)
  }

  function ApplyNext<B>(c: Config<B>, s: System<B>, w: nat, at: int, recheckAt: int, oracle: nat): System<B>
    requires WorkerOf(s, w).Loaded?
  {
    var input := InputOf(s, w, at, oracle);
    var reply := c.handler(input);
    match reply
    case Decided(_, _, _, _, _) =>
      Note(SetWorker(s.(db := CommitReply(s.db, input, reply, recheckAt), business := reply.business),
                     w, Acking(input.id, CommitAcks(reply.effects, input.row))),
           [Committed(input, reply)])
    case Refused => SetWorker(s, w, Refusing(input.id, input.row))
    case Transient => SetWorker(s, w, Retrying(input.id, input.row))
    case TimedOut => SetWorker(s, w, Retrying(input.id, input.row))
    case InvariantBroken => SetWorker(s, w, Poisoning(input.id, input.row))
    case Panicked => SetWorker(s, w, Poisoning(input.id, input.row))
  }

  function WorkNext<B>(c: Config<B>, s: System<B>, w: nat, k: WorkStep): System<B>
    requires WorkEnabled(c, s, w, k)
  {
    match k
    case Load(id, at) => SetWorker(s, w, Loaded(id, s.db.inbox[id]))
    case Apply(at, recheckAt, oracle) => ApplyNext(c, s, w, at, recheckAt, oracle)
    case AbortApply => SetWorker(s, w, Idle)
    case FailUnhandled(at) =>
      var id := WorkerOf(s, w).id;
      Note(SetWorker(s.(db := MarkFailed(s.db, id, at)), w, Idle), [Attempted(id)])
    case ScheduleRetry(nextAt, at) =>
      var id := WorkerOf(s, w).id;
      Note(SetWorker(s.(db := MarkRetry(s.db, id, nextAt, at)), w, Idle), [Attempted(id)])
    case MarkRefused(at) =>
      var Refusing(id, row) := WorkerOf(s, w);
      Note(SetWorker(s.(db := MarkFailed(s.db, id, at)), w, Releasing(id, row)), [Rejected(id)])
    case ReleaseKind =>
      var Releasing(id, row) := WorkerOf(s, w);
      SetWorker(s.(db := ReleasePoison(s.db, PoisonKey(row.aggregate, row.kind))), w, Acking(id, OwnAck(row)))
    case MarkPoisonedEvent(at) =>
      var Poisoning(id, row) := WorkerOf(s, w);
      Note(SetWorker(s.(db := MarkPoison(MarkPoisoned(s.db, id, at), PoisonKey(row.aggregate, row.kind), at,
                                         c.poisonBackoff)), w, Idle),
           [Attempted(id)])
    case DispatchAcks(room) =>
      var Acking(id, acks) := WorkerOf(s, w);
      Note(SetWorker(s, w, Idle), AckEntries(id, acks, room))
  }

  // ---------------------------------------------------------------- executor

  predicate ExecEnabled(db: Db, holders: map<nat, Holder>, x: ExecStep) {
    match x
    case Claim(h, job, _, at) => h !in holders && Claimable(db.jobs, job, at)
    case Renew(h, _, _) => h in holders
    case EndRun(h, _) => h in holders && holders[h].finish.None?
    case RecordCompletion(h, _, _) => h in holders && holders[h].finish.Some?
    case DropHolder(h) => h in holders
    case SweepCancelled(order, at) => SweepOrder(db.jobs, order, at)
  }

  function ExecDb(db: Db, holders: map<nat, Holder>, x: ExecStep, backoff: int -> int): Db
    requires ExecEnabled(db, holders, x)
  {
    match x
    case Claim(_, job, leaseUntil, at) => db.(jobs := db.jobs[job := ClaimedRow(db.jobs[job], leaseUntil, at)])
    case Renew(h, leaseUntil, at) =>
      db.(jobs := RenewLease(db.jobs, holders[h].job, holders[h].row.generation, leaseUntil, at))
    case EndRun(_, _) => db
    case RecordCompletion(h, at, _) =>
      RecordFinish(db, holders[h].job, holders[h].row, holders[h].finish.value, at, backoff)
    case DropHolder(_) => db
    case SweepCancelled(order, at) => Sweep(db, order, at)
  }

  function ExecHolders(db: Db, holders: map<nat, Holder>, x: ExecStep): map<nat, Holder>
    requires ExecEnabled(db, holders, x)
  {
    match x
    case Claim(h, job, leaseUntil, at) => holders[h := Holder(job, ClaimedRow(db.jobs[job], leaseUntil, at), None)]
    case EndRun(h, f) => holders[h := holders[h].(finish := Some(f))]
    case RecordCompletion(h, _, seen) => if seen then holders - {h} else holders
    case DropHolder(h) => holders - {h}
    case _ => holders
  }

  /** The end of a job and the result row it leaves, as the history keeps them. */
  function EndEntries<B>(db: Db, job: string, row: JobRow, ended: bool, stale: bool, outcome: Option<JobOutcome>)
    : seq<Entry<B>>
  {
    (if ended then [JobEnded(job, row.generation)] else [])
    + (if outcome.Some? && ResultOf(job, row.generation) !in db.inbox
       then [ResultRecorded(ResultEvent(job, row, row.generation, stale, outcome.value))] else [])
  }

  function SweepEntries<B>(db: Db, order: seq<string>): seq<Entry<B>>
    requires forall id | id in order :: id in db.jobs
  {
    if order == [] then []
    else
      var id := order[|order| - 1];
      SweepEntries(db, order[..|order| - 1])
      + EndEntries(db, id, db.jobs[id], true, false, Some(JobOutcome.Cancelled))
  }

  /** Leases that start or end. */
  function LeaseEntries<B>(db: Db, holders: map<nat, Holder>, x: ExecStep): seq<Entry<B>>
    requires ExecEnabled(db, holders, x)
  {
    match x
    case Claim(_, job, _, _) => [Claimed(job)]
    case RecordCompletion(h, _, _) =>
      var Holder(job, row, Some(f)) := holders[h];
      if Holds(db.jobs, job, row.generation) then [LeaseEnded(job, f)] else []
    case SweepCancelled(order, _) => [Swept(set id | id in order)]
    case _ => []
  }

  function ExecLog<B>(db: Db, holders: map<nat, Holder>, x: ExecStep): seq<Entry<B>>
    requires ExecEnabled(db, holders, x)
  {
    LeaseEntries(db, holders, x) + ResultEntries(db, holders, x)
  }

  function ResultEntries<B>(db: Db, holders: map<nat, Holder>, x: ExecStep): seq<Entry<B>>
    requires ExecEnabled(db, holders, x)
  {
    match x
    case RecordCompletion(h, _, _) =>
      var Holder(job, row, Some(f)) := holders[h];
      var outcome := FinishOutcomeOf(db.jobs, job, row.generation, f);
      EndEntries(db, job, row, outcome.Finished? && outcome.state.Terminal(), !outcome.Finished?, Reported(outcome, f))
    case SweepCancelled(order, _) => SweepEntries(db, order)
    case _ => []
  }

  // --------------------------------------------------------------- publisher

  predicate PublishEnabled(outbox: map<string, OutboxRow>, p: PublishStep) {
    match p
    case LeaseMessage(id, _, at) => id in outbox && MessageDue(outbox[id], at)
    case Published(id, _, _, _) => id in outbox
    case Acknowledge(id, peer, delivery, _) => id in outbox && AckMatches(outbox[id], peer, delivery)
  }

  function PublishNext(outbox: map<string, OutboxRow>, p: PublishStep): map<string, OutboxRow>
    requires PublishEnabled(outbox, p)
  {
    match p
    case LeaseMessage(id, leaseUntil, at) => outbox[id := outbox[id].(leaseUntil := leaseUntil, updatedAt := at)]
    case Published(id, ok, nextAt, at) =>
      outbox[id := if ok then RecordPublish(outbox[id], nextAt, at) else RecordPublishFailure(outbox[id], nextAt, at)]
    case Acknowledge(id, peer, _, at) => outbox[id := AcknowledgeRow(outbox[id], peer, at)]
  }

  /** Confirmed deliveries; leasing and publishing leave no entry. */
  function PublishLog<B>(p: PublishStep): seq<Entry<B>> {
    if p.Acknowledge? then [Acknowledged(p.message, p.peer)] else []
  }

  // -------------------------------------------------------------------- steps

  predicate Enabled<B>(c: Config<B>, s: System<B>, step: Step<B>) {
    match step
    case Submit(u) => SubmitEnabled(s.submitters, u)
    case Runtime(_) => true
    case Work(w, k) => WorkEnabled(c, s, w, k)
    case Exec(x) => ExecEnabled(s.db, s.holders, x)
    case Publish(p) => PublishEnabled(s.db.outbox, p)
    case Write(b) => c.mayWrite(s.business, b)
    case Crash(_) => true
  }

  function Next<B>(c: Config<B>, s: System<B>, step: Step<B>): System<B>
    requires Enabled(c, s, step)
  {
    match step
    case Submit(u) =>
      s.(db := SubmitDb(s.db, s.submitters, u), submitters := SubmitNext(s.db, s.submitters, u),
         log := s.log + SubmitLog(s.submitters, u))
    case Runtime(r) => s.(db := RuntimeDb(s.db, r), log := s.log + RuntimeLog(s.db, r))
    case Work(w, k) => WorkNext(c, s, w, k)
    case Exec(x) => s.(db := ExecDb(s.db, s.holders, x, c.poisonBackoff), holders := ExecHolders(s.db, s.holders, x),
                       log := s.log + ExecLog(s.db, s.holders, x))
    case Publish(p) => s.(db := s.db.(outbox := PublishNext(s.db.outbox, p)), log := s.log + PublishLog(p))
    case Write(b) => s.(business := b, log := s.log + [Wrote(b)])
    case Crash(shards) => s.(shards := shards, workers := map[], holders := map[], submitters := map[])
  }

  // -------------------------------------------------------------------- runs

  /** The states a run passes through, first and last included. */
  ghost predicate IsRun<B(!new)>(c: Config<B>, run: seq<System<B>>, steps: seq<Step<B>>) {
    && |run| == |steps| + 1
    && forall i | 0 <= i < |steps| :: Enabled(c, run[i], steps[i]) && run[i + 1] == Next(c, run[i], steps[i])
  }
}
