/** The aggregate worker (crates/engine/src/worker.rs) statement by statement, shown to
    take only steps of the engine machine. */
module EngineWorker {
  import opened Common
  import opened EngineTypes
  import opened EngineTables
  import opened EngineTransactions
  import opened EngineMachine
  import opened EngineDelivery

  /** The database behind one writer, and the ACKs handed to the ACK channel. */
  class Database<B> {
    var tables: Db
    var business: B
    var acks: seq<AckTarget>

    constructor (business: B)
      ensures tables == NO_ROWS && this.business == business && acks == []
    {
      tables, this.business, acks := NO_ROWS, business, [];
    }
  }

  // ------------------------------------------- statements repeated in a loop

  lemma CloseOneMore(outbox: map<string, OutboxRow>, ts: seq<CloseTarget>, i: nat, now: int)
    requires i < |ts|
    ensures CloseMessages(CloseMessages(outbox, ts[..i], now), [ts[i]], now) == CloseMessages(outbox, ts[..i + 1], now)
  {
    var before, after, one := ts[..i], ts[..i + 1], [ts[i]];
    var mid := CloseMessages(outbox, before, now);
    assert after == before + one;
    forall id | id in outbox
      ensures CloseMessages(mid, one, now)[id] == CloseMessages(outbox, after, now)[id]
    {
      assert ClosesRow(one[0], id, mid[id]) == ClosesRow(after[i], id, outbox[id]);
      if k :| 0 <= k < |before| && ClosesRow(before[k], id, outbox[id]) { assert after[k] == before[k]; }
    }
  }

  lemma CancelOneMore(jobs: map<string, JobRow>, cs: seq<JobCancel>, i: nat, own: AggregateRef, now: int)
    requires i < |cs|
    ensures CancelJobs(CancelJobs(jobs, cs[..i], own, now), [cs[i]], own, now)
            == CancelJobs(jobs, cs[..i + 1], own, now)
  {
    var before, after, one := cs[..i], cs[..i + 1], [cs[i]];
    var mid := CancelJobs(jobs, before, own, now);
    assert after == before + one;
    forall id | id in jobs
      ensures CancelJobs(mid, one, own, now)[id] == CancelJobs(jobs, after, own, now)[id]
    {
      assert CancelsRow(one[0], own, id, mid[id]) == CancelsRow(after[i], own, id, jobs[id]);
      if k :| 0 <= k < |before| && CancelsRow(before[k], own, id, jobs[id]) { assert after[k] == before[k]; }
    }
  }

  method WriteOutbox<B>(db: Database<B>, a: AggregateRef, e: Effects, now: int)
    modifies db`tables
    ensures db.tables == old(db.tables).(outbox :=
              CloseMessages(InsertMessages(old(db.tables.outbox), a, e.outbox, now), e.closes, now))
  {
    ghost var before := db.tables;
    for i := 0 to |e.outbox|
      invariant db.tables == before.(outbox := InsertMessages(before.outbox, a, e.outbox[..i], now))
    {
      db.tables := db.tables.(outbox := InsertMessage(db.tables.outbox, a, e.outbox[i], now));
      assert e.outbox[..i + 1][..i] == e.outbox[..i];
    }
    assert e.outbox[..|e.outbox|] == e.outbox;
    ghost var sent := db.tables.outbox;
    assert CloseMessages(sent, e.closes[..0], now) == sent;
    for i := 0 to |e.closes|
      invariant db.tables == before.(outbox := CloseMessages(sent, e.closes[..i], now))
    {
      db.tables := db.tables.(outbox := CloseMessages(db.tables.outbox, [e.closes[i]], now));
      CloseOneMore(sent, e.closes, i, now);
    }
    assert e.closes[..|e.closes|] == e.closes;
  }

  method WriteJobs<B>(db: Database<B>, a: AggregateRef, e: Effects, now: int)
    modifies db`tables
    ensures db.tables == old(db.tables).(jobs := CancelJobs(InsertJobs(old(db.tables.jobs), a, e.jobs, now),
                                                            e.cancels, a, now))
  {
    ghost var before := db.tables;
    for i := 0 to |e.jobs|
      invariant db.tables == before.(jobs := InsertJobs(before.jobs, a, e.jobs[..i], now))
    {
      db.tables := db.tables.(jobs := InsertJob(db.tables.jobs, a, e.jobs[i], now));
      assert e.jobs[..i + 1][..i] == e.jobs[..i];
    }
    assert e.jobs[..|e.jobs|] == e.jobs;
    ghost var queued := db.tables.jobs;
    assert CancelJobs(queued, e.cancels[..0], a, now) == queued;
    for i := 0 to |e.cancels|
      invariant db.tables == before.(jobs := CancelJobs(queued, e.cancels[..i], a, now))
    {
      db.tables := db.tables.(jobs := CancelJobs(db.tables.jobs, [e.cancels[i]], a, now));
      CancelOneMore(queued, e.cancels, i, a, now);
    }
    assert e.cancels[..|e.cancels|] == e.cancels;
  }

  lemma WakeNobody(inbox: map<EventId, InboxRow>, now: int)
    ensures Wake(inbox, [], now) == inbox
  {
  }

  method WriteInbox<B>(db: Database<B>, refs: seq<string>, id: EventId, waiting: Option<string>, recheckAt: int,
                       now: int)
    modifies db`tables
    ensures db.tables == old(db.tables).(inbox :=
              var woken := Wake(old(db.tables.inbox), refs, now);
              if waiting.None? then MarkApplied(woken, id, now)
                 else MarkWaiting(woken, id, waiting.value, recheckAt, now))
  {
    if refs != [] {
      db.tables := db.tables.(inbox := Wake(db.tables.inbox, refs, now));
    } else {
      WakeNobody(db.tables.inbox, now);
    }
    match waiting
    case None => db.tables := db.tables.(inbox := MarkApplied(db.tables.inbox, id, now));
    case Some(ref) => db.tables := db.tables.(inbox := MarkWaiting(db.tables.inbox, id, ref, recheckAt, now));
  }

  /** The commit of a decided apply: sends, closes, enqueues, cancels, poison, aggregate
      row, wakes and the mark, in that order. */
  method CommitEffects<B>(db: Database<B>, a: AggregateRef, id: EventId, kind: string, e: Effects,
                          waiting: Option<string>, recheckAt: int, now: int)
    modifies db`tables
    ensures db.tables == CommitApply(old(db.tables), a, id, kind, e, waiting, recheckAt, now)
  {
    var current := FindAggregate(db.tables, a);
    WriteOutbox(db, a, e, now);
    WriteJobs(db, a, e, now);
    db.tables := ReleasePoison(db.tables, PoisonKey(a, kind));
    var updated := UpsertAggregate(current, e, id);
    db.tables := db.tables.(aggregates := db.tables.aggregates[a := updated]);
    var refs := e.wakes + if StatusOrPhaseChanged(current, updated) then [a.WakeRef()] else [];
    WriteInbox(db, refs, id, waiting, recheckAt, now);
  }

  // ------------------------------------------------------------- one event

  datatype ProcessOutcome = Applied | Waiting | Rejected | Transient | TimedOut | Poisoned | NoHandler

  /** What the surroundings decide about one event: clock readings, the retry time, what
      the handler sees outside the database, and which ACKs found room in their channel. */
  datatype Surroundings = Surroundings(at: int, recheckAt: int, later: int, retryAt: int, oracle: nat,
                                       ackRoom: seq<bool>)

  /** Handlers record producer events only (crates/engine/src/runtime.rs, submit_in). */
  ghost predicate RecordsProducers<B(!new)>(c: Config<B>) {
    forall input :: c.handler(input).Decided? ==> forall e | e in c.handler(input).recorded :: ProducerEvent(e)
  }

  /** The machine steps one event goes through. */
  function ProcessSteps<B>(c: Config<B>, input: ApplyInput<B>, v: Surroundings): seq<WorkStep> {
    if !c.handles(input.row.aggregate.kind) then [FailUnhandled(v.at)]
    else
      [Apply(v.at, v.recheckAt, v.oracle)]
      + match c.handler(input)
        case Decided(_, _, _, _, _) => [DispatchAcks(v.ackRoom)]
        case Refused => [MarkRefused(v.later), ReleaseKind, DispatchAcks(v.ackRoom)]
        case Transient => [ScheduleRetry(v.retryAt, v.later)]
        case TimedOut => [ScheduleRetry(v.retryAt, v.later)]
        case InvariantBroken => [MarkPoisonedEvent(v.later)]
        case Panicked => [MarkPoisonedEvent(v.later)]
  }

  /** The system after the statements `ks` of worker `w`, each enabled in its turn. */
  ghost predicate Takes<B>(c: Config<B>, s: System<B>, w: nat, ks: seq<WorkStep>, t: System<B>)
    decreases |ks|
  {
    if ks == [] then t == s
    else WorkEnabled(c, s, w, ks[0]) && Takes(c, WorkNext(c, s, w, ks[0]), w, ks[1..], t)
  }

  lemma TakesTwo<B>(c: Config<B>, s: System<B>, w: nat, k: WorkStep, l: WorkStep)
    requires WorkEnabled(c, s, w, k) && WorkEnabled(c, WorkNext(c, s, w, k), w, l)
    ensures Takes(c, s, w, [k] + [l], WorkNext(c, WorkNext(c, s, w, k), w, l))
  {
    var t := WorkNext(c, s, w, k);
    assert ([k] + [l])[1..] == [l] && [l][1..] == [];
    assert Takes(c, t, w, [l], WorkNext(c, t, w, l));
  }

  lemma TakesThenThree<B>(c: Config<B>, s: System<B>, w: nat, k: WorkStep, l: WorkStep, m: WorkStep, n: WorkStep,
                          t: System<B>)
    requires WorkEnabled(c, s, w, k)
    requires Takes(c, WorkNext(c, s, w, k), w, [l, m] + [n], t)
    ensures Takes(c, s, w, [k] + [l, m, n], t)
  {
    assert ([k] + [l, m, n])[1..] == [l, m] + [n];
  }

  lemma TakesThree<B>(c: Config<B>, s: System<B>, w: nat, k: WorkStep, l: WorkStep, m: WorkStep)
    requires WorkEnabled(c, s, w, k) && WorkEnabled(c, WorkNext(c, s, w, k), w, l)
    requires WorkEnabled(c, WorkNext(c, WorkNext(c, s, w, k), w, l), w, m)
    ensures Takes(c, s, w, [k, l] + [m], WorkNext(c, WorkNext(c, WorkNext(c, s, w, k), w, l), w, m))
  {
    assert ([k, l] + [m])[1..] == [l] + [m];
    TakesTwo(c, WorkNext(c, s, w, k), w, l, m);
  }

  /** After the commit the worker stands before its ACKs. */
  lemma CommitThenAcks<B>(c: Config<B>, s: System<B>, w: nat, v: Surroundings)
    requires WorkEnabled(c, s, w, Apply(v.at, v.recheckAt, v.oracle))
    requires c.handler(InputOf(s, w, v.at, v.oracle)).Decided?
    ensures var t, input := WorkNext(c, s, w, Apply(v.at, v.recheckAt, v.oracle)), InputOf(s, w, v.at, v.oracle);
            && t.db == CommitReply(s.db, input, c.handler(input), v.recheckAt)
            && t.business == c.handler(input).business
            && t.log == s.log + [Committed(input, c.handler(input))]
            && WorkerOf(t, w) == Acking(input.id, AcksOf(c, input))
  {
  }

  lemma AcksSent<B>(c: Config<B>, s: System<B>, w: nat, room: seq<bool>)
    requires WorkerOf(s, w).Acking?
    ensures WorkEnabled(c, s, w, DispatchAcks(room))
    ensures var t := WorkNext(c, s, w, DispatchAcks(room));
            && t.db == s.db && t.business == s.business && WorkerOf(t, w).Idle?
            && t.log == s.log + AckEntries(WorkerOf(s, w).id, WorkerOf(s, w).acks, room)
  {
  }

  /** The states an event passes through, by what its handler answered. */
  lemma DecidedPath<B>(c: Config<B>, s: System<B>, w: nat, v: Surroundings) returns (t: System<B>)
    requires WorkEnabled(c, s, w, Apply(v.at, v.recheckAt, v.oracle))
    requires c.handler(InputOf(s, w, v.at, v.oracle)).Decided?
    ensures Takes(c, s, w, ProcessSteps(c, InputOf(s, w, v.at, v.oracle), v), t)
    ensures t.log == s.log + ProcessLog(c, InputOf(s, w, v.at, v.oracle), v)
    ensures var input := InputOf(s, w, v.at, v.oracle);
            t.db == CommitReply(s.db, input, c.handler(input), v.recheckAt) && t.business == c.handler(input).business
    ensures WorkerOf(t, w).Idle?
  {
    var k, l := Apply(v.at, v.recheckAt, v.oracle), DispatchAcks(v.ackRoom);
    CommitThenAcks(c, s, w, v);
    AcksSent(c, WorkNext(c, s, w, k), w, v.ackRoom);
    TakesTwo(c, s, w, k, l);
    t := WorkNext(c, WorkNext(c, s, w, k), w, l);
  }

  lemma RefusedPath<B>(c: Config<B>, s: System<B>, w: nat, v: Surroundings) returns (t: System<B>)
    requires WorkEnabled(c, s, w, Apply(v.at, v.recheckAt, v.oracle))
    requires c.handler(InputOf(s, w, v.at, v.oracle)).Refused?
    ensures Takes(c, s, w, ProcessSteps(c, InputOf(s, w, v.at, v.oracle), v), t)
    ensures t.log == s.log + ProcessLog(c, InputOf(s, w, v.at, v.oracle), v)
    ensures var Loaded(id, row) := WorkerOf(s, w);
            t.db == ReleasePoison(MarkFailed(s.db, id, v.later), PoisonKey(row.aggregate, row.kind))
    ensures t.business == s.business && WorkerOf(t, w).Idle?
  {
    var k := Apply(v.at, v.recheckAt, v.oracle);
    var r := WorkNext(c, s, w, k);
    TakesThree(c, r, w, MarkRefused(v.later), ReleaseKind, DispatchAcks(v.ackRoom));
    t := WorkNext(c, WorkNext(c, WorkNext(c, r, w, MarkRefused(v.later)), w, ReleaseKind), w, DispatchAcks(v.ackRoom));
    TakesThenThree(c, s, w, k, MarkRefused(v.later), ReleaseKind, DispatchAcks(v.ackRoom), t);
  }

  lemma RetryPath<B>(c: Config<B>, s: System<B>, w: nat, v: Surroundings) returns (t: System<B>)
    requires WorkEnabled(c, s, w, Apply(v.at, v.recheckAt, v.oracle))
    requires var reply := c.handler(InputOf(s, w, v.at, v.oracle)); reply.Transient? || reply.TimedOut?
    ensures Takes(c, s, w, ProcessSteps(c, InputOf(s, w, v.at, v.oracle), v), t)
    ensures t.log == s.log + ProcessLog(c, InputOf(s, w, v.at, v.oracle), v)
    ensures t.db == MarkRetry(s.db, WorkerOf(s, w).id, v.retryAt, v.later) && t.business == s.business
    ensures WorkerOf(t, w).Idle?
  {
    var k, l := Apply(v.at, v.recheckAt, v.oracle), ScheduleRetry(v.retryAt, v.later);
    TakesTwo(c, s, w, k, l);
    t := WorkNext(c, WorkNext(c, s, w, k), w, l);
  }

  lemma PoisonPath<B>(c: Config<B>, s: System<B>, w: nat, v: Surroundings) returns (t: System<B>)
    requires WorkEnabled(c, s, w, Apply(v.at, v.recheckAt, v.oracle))
    requires var reply := c.handler(InputOf(s, w, v.at, v.oracle)); reply.InvariantBroken? || reply.Panicked?
    ensures Takes(c, s, w, ProcessSteps(c, InputOf(s, w, v.at, v.oracle), v), t)
    ensures t.log == s.log + ProcessLog(c, InputOf(s, w, v.at, v.oracle), v)
    ensures var Loaded(id, row) := WorkerOf(s, w);
            t.db == MarkPoison(MarkPoisoned(s.db, id, v.later), PoisonKey(row.aggregate, row.kind), v.later,
                               c.poisonBackoff)
    ensures t.business == s.business && WorkerOf(t, w).Idle?
  {
    var k, l := Apply(v.at, v.recheckAt, v.oracle), MarkPoisonedEvent(v.later);
    TakesTwo(c, s, w, k, l);
    t := WorkNext(c, WorkNext(c, s, w, k), w, l);
  }

  lemma UnhandledPath<B>(c: Config<B>, s: System<B>, w: nat, v: Surroundings) returns (t: System<B>)
    requires WorkEnabled(c, s, w, FailUnhandled(v.at))
    ensures Takes(c, s, w, ProcessSteps(c, InputOf(s, w, v.at, v.oracle), v), t)
    ensures t.log == s.log + ProcessLog(c, InputOf(s, w, v.at, v.oracle), v)
    ensures t.db == MarkFailed(s.db, WorkerOf(s, w).id, v.at) && t.business == s.business && WorkerOf(t, w).Idle?
  {
    t := WorkNext(c, s, w, FailUnhandled(v.at));
    assert [FailUnhandled(v.at)][1..] == [];
  }

  /** Hand over each ACK in turn; the full channel drops it. */
  method SendAcks<B>(db: Database<B>, acks: seq<AckTarget>, room: seq<bool>)
    modifies db`acks
    ensures db.acks == old(db.acks) + SentAcks(acks, room)
  {
    for i := 0 to |acks|
      invariant db.acks == old(db.acks) + SentAcks(acks[..i], room)
    {
      if i < |room| && room[i] { db.acks := db.acks + [acks[i]]; }
      assert acks[..i + 1][..i] == acks[..i];
    }
    assert acks[..|acks|] == acks;
  }

  /** What one event comes to, by what its handler answered. */
  function OutcomeOf<B>(c: Config<B>, input: ApplyInput<B>): ProcessOutcome {
    if !c.handles(input.row.aggregate.kind) then NoHandler
    else
      match c.handler(input)
      case Decided(verdict, _, _, _, _) => if verdict.Accept? then ProcessOutcome.Applied else Waiting
      case Refused => ProcessOutcome.Rejected
      case Transient => ProcessOutcome.Transient
      case TimedOut => ProcessOutcome.TimedOut
      case InvariantBroken => ProcessOutcome.Poisoned
      case Panicked => ProcessOutcome.Poisoned
  }

  /** The ACKs an event leads to: the handler's and its own when it was applied or parked,
      its own when it was rejected. */
  function AcksOf<B>(c: Config<B>, input: ApplyInput<B>): seq<AckTarget> {
    var outcome := OutcomeOf(c, input);
    if outcome.Applied? || outcome.Waiting? then CommitAcks(c.handler(input).effects, input.row)
    else if outcome.Rejected? then OwnAck(input.row)
    else []
  }

  /** What one event leaves in the history. */
  function ProcessLog<B>(c: Config<B>, input: ApplyInput<B>, v: Surroundings): seq<Entry<B>> {
    var outcome := OutcomeOf(c, input);
    (if outcome.Applied? || outcome.Waiting? then [Committed(input, c.handler(input))]
     else if outcome.Rejected? then [Entry.Rejected(input.id)]
     else [Attempted(input.id)])
    + AckEntries(input.id, AcksOf(c, input), v.ackRoom)
  }

  method ProcessEvent<B(!new)>(db: Database<B>, c: Config<B>, ghost s: System<B>, w: nat, id: EventId, row: InboxRow,
                               v: Surroundings) returns (outcome: ProcessOutcome, ghost t: System<B>)
    requires s.db == db.tables && s.business == db.business && WorkerOf(s, w) == Loaded(id, row) && RecordsProducers(c)
    modifies db
    ensures Takes(c, s, w, ProcessSteps(c, InputOf(s, w, v.at, v.oracle), v), t)
    ensures t.db == db.tables && t.business == db.business && WorkerOf(t, w).Idle?
    ensures outcome == OutcomeOf(c, InputOf(s, w, v.at, v.oracle))
    ensures db.acks == old(db.acks) + SentAcks(AcksOf(c, InputOf(s, w, v.at, v.oracle)), v.ackRoom)
    ensures t.log == s.log + ProcessLog(c, InputOf(s, w, v.at, v.oracle), v)
  {
    if !c.handles(row.aggregate.kind) {
      db.tables := MarkFailed(db.tables, id, v.at);
      t := UnhandledPath(c, s, w, v);
      return NoHandler, t;
    }
    var reply := c.handler(ApplyInput(db.business, FindAggregate(db.tables, row.aggregate), id, row, v.at, db.tables,
                                      v.oracle));
    match reply
    case Decided(verdict, effects, business, recorded, cleared) =>
      db.tables, db.business := HandlerWrites(db.tables, recorded, cleared, v.at), business;
      CommitEffects(db, row.aggregate, id, row.kind, effects, if verdict.Park? then Some(verdict.ref) else None,
                    v.recheckAt, v.at);
      SendAcks(db, effects.acks + OwnAck(row), v.ackRoom);
      outcome := if verdict.Accept? then ProcessOutcome.Applied else Waiting;
      t := DecidedPath(c, s, w, v);
    case Refused =>
      db.tables := MarkFailed(db.tables, id, v.later);
      db.tables := ReleasePoison(db.tables, PoisonKey(row.aggregate, row.kind));
      SendAcks(db, OwnAck(row), v.ackRoom);
      outcome := ProcessOutcome.Rejected;
      t := RefusedPath(c, s, w, v);
    case Transient =>
      db.tables := MarkRetry(db.tables, id, v.retryAt, v.later);
      outcome := ProcessOutcome.Transient;
      t := RetryPath(c, s, w, v);
    case TimedOut =>
      db.tables := MarkRetry(db.tables, id, v.retryAt, v.later);
      outcome := ProcessOutcome.TimedOut;
      t := RetryPath(c, s, w, v);
    case _ =>
      db.tables := MarkPoison(MarkPoisoned(db.tables, id, v.later), PoisonKey(row.aggregate, row.kind), v.later,
                              c.poisonBackoff);
      outcome := ProcessOutcome.Poisoned;
      t := PoisonPath(c, s, w, v);
  }

  // -------------------------------------------------------------- a whole shard

  predicate Due<B>(c: Config<B>, s: Db, shards: nat, w: nat, id: EventId, now: int) {
    Runnable(s, id, now) && Shard(c, s.inbox[id].aggregate, shards) == w
  }

  /** The runnable event of shard `w` with the smallest sequence number. */
  method NextRunnable<B>(c: Config<B>, db: Db, shards: nat, w: nat, now: int) returns (next: Option<EventId>)
    ensures next.None? ==> forall id | id in db.inbox :: !Due(c, db, shards, w, id, now)
    ensures next.Some? ==> Due(c, db, shards, w, next.value, now)
    ensures next.Some? ==> forall id | id in db.inbox && Due(c, db, shards, w, id, now) ::
                             db.inbox[next.value].seqNo <= db.inbox[id].seqNo
  {
    next := None;
    var left := db.inbox.Keys;
    while left != {}
      invariant left <= db.inbox.Keys
      invariant next.None? ==> forall id | id in db.inbox && id !in left :: !Due(c, db, shards, w, id, now)
      invariant next.Some? ==> Due(c, db, shards, w, next.value, now)
      invariant next.Some? ==> forall id | id in db.inbox && id !in left && Due(c, db, shards, w, id, now) ::
                                 db.inbox[next.value].seqNo <= db.inbox[id].seqNo
    {
      var id :| id in left;
      left := left - {id};
      if Due(c, db, shards, w, id, now) && (next.None? || db.inbox[id].seqNo < db.inbox[next.value].seqNo) {
        next := Some(id);
      }
    }
  }

  /** From `s` to `t` by loading and processing one event per entry of `passes`. */
  ghost predicate Drains<B(!new)>(c: Config<B>, s: System<B>, w: nat, passes: seq<Surroundings>, t: System<B>) {
    if passes == [] then t == s
    else
      var v := passes[|passes| - 1];
      exists u, id :: Drains(c, s, w, passes[..|passes| - 1], u) && Processes(c, u, w, id, v, t)
  }

  ghost predicate Processes<B>(c: Config<B>, s: System<B>, w: nat, id: EventId, v: Surroundings, t: System<B>) {
    && WorkEnabled(c, s, w, Load(id, v.at))
    && var u := WorkNext(c, s, w, Load(id, v.at));
    Takes(c, u, w, ProcessSteps(c, InputOf(u, w, v.at, v.oracle), v), t)
  }

  lemma LoadsNext<B>(c: Config<B>, s: System<B>, w: nat, id: EventId, now: int)
    requires WorkerOf(s, w).Idle? && Due(c, s.db, s.shards, w, id, now)
    requires forall e | e in s.db.inbox && Due(c, s.db, s.shards, w, e, now) ::
             s.db.inbox[id].seqNo <= s.db.inbox[e].seqNo
    ensures WorkEnabled(c, s, w, Load(id, now))
    ensures var u := WorkNext(c, s, w, Load(id, now));
            u.db == s.db && u.business == s.business && u.shards == s.shards
              && WorkerOf(u, w) == Loaded(id, s.db.inbox[id])
  {
    forall e | e in s.db.inbox && Runnable(s.db, e, now) && Shard(c, s.db.inbox[e].aggregate, s.shards) == w
      ensures s.db.inbox[id].seqNo <= s.db.inbox[e].seqNo
    {
      assert Due(c, s.db, s.shards, w, e, now);
    }
  }

  /** Load and process the next event of the shard, if there is one. */
  method ProcessNext<B(!new)>(db: Database<B>, c: Config<B>, ghost s: System<B>, shards: nat, w: nat, v: Surroundings)
    returns (next: Option<EventId>, ghost t: System<B>)
    requires s.db == db.tables && s.business == db.business && s.shards == shards && WorkerOf(s, w).Idle?
    requires RecordsProducers(c)
    modifies db
    ensures next.None? ==> t == s && forall id | id in db.tables.inbox :: !Due(c, db.tables, shards, w, id, v.at)
    ensures next.Some? ==> Processes(c, s, w, next.value, v, t)
    ensures t.db == db.tables && t.business == db.business && t.shards == shards && WorkerOf(t, w).Idle?
  {
    next := NextRunnable(c, db.tables, shards, w, v.at);
    t := s;
    if next.Some? {
      LoadsNext(c, s, w, next.value, v.at);
      ghost var u := WorkNext(c, s, w, Load(next.value, v.at));
      var outcome;
      outcome, t := ProcessEvent(db, c, u, w, next.value, db.tables.inbox[next.value], v);
      TakesKeepsShards(c, u, w, ProcessSteps(c, InputOf(u, w, v.at, v.oracle), v), t);
    }
  }

  lemma DrainsThen<B(!new)>(c: Config<B>, s: System<B>, w: nat, front: seq<Surroundings>, passes: seq<Surroundings>,
                            u: System<B>, id: EventId, t: System<B>)
    requires passes != [] && passes[..|passes| - 1] == front && Drains(c, s, w, front, u)
    requires Processes(c, u, w, id, passes[|passes| - 1], t)
    ensures Drains(c, s, w, passes, t)
  {
  }

  lemma DrainsOneMore<B(!new)>(c: Config<B>, s: System<B>, w: nat, passes: seq<Surroundings>, n: nat, u: System<B>,
                               id: EventId, t: System<B>)
    requires n < |passes| && Drains(c, s, w, passes[..n], u) && Processes(c, u, w, id, passes[n], t)
    ensures Drains(c, s, w, passes[..n + 1], t)
  {
    assert passes[..n + 1][..n] == passes[..n];
    DrainsThen(c, s, w, passes[..n], passes[..n + 1], u, id, t);
  }

  /** Apply runnable events of the shard until none is left or the token fires, here when
      `passes` is used up. The lowest runnable sequence number always goes first. */
  method DrainShard<B(!new)>(db: Database<B>, c: Config<B>, ghost s: System<B>, shards: nat, w: nat,
                             passes: seq<Surroundings>)
    returns (processed: nat, ghost t: System<B>)
    requires s.db == db.tables && s.business == db.business && s.shards == shards && WorkerOf(s, w).Idle?
    requires RecordsProducers(c)
    modifies db
    ensures processed <= |passes| && Drains(c, s, w, passes[..processed], t)
    ensures t.db == db.tables && t.business == db.business && WorkerOf(t, w).Idle?
    ensures processed < |passes| ==>
              forall id | id in db.tables.inbox :: !Due(c, db.tables, shards, w, id, passes[processed].at)
  {
    processed, t := 0, s;
    while processed < |passes|
      invariant processed <= |passes| && Drains(c, s, w, passes[..processed], t)
      invariant t.db == db.tables && t.business == db.business && t.shards == shards && WorkerOf(t, w).Idle?
    {
      ghost var u := t;
      var next;
      next, t := ProcessNext(db, c, t, shards, w, passes[processed]);
      if next.None? { return; }
      DrainsOneMore(c, s, w, passes, processed, u, next.value, t);
      processed := processed + 1;
    }
  }

  lemma {:induction false} TakesKeepsShards<B>(c: Config<B>, s: System<B>, w: nat, ks: seq<WorkStep>, t: System<B>)
    requires Takes(c, s, w, ks, t)
    ensures t.shards == s.shards
    decreases |ks|
  {
    if ks != [] { TakesKeepsShards(c, WorkNext(c, s, w, ks[0]), w, ks[1..], t); }
  }

  lemma {:induction false} TakesDelivers<B>(c: Config<B>, s: System<B>, w: nat, ks: seq<WorkStep>, t: System<B>)
    requires Delivery(c, s) && Takes(c, s, w, ks, t)
    ensures Delivery(c, t)
    decreases |ks|
  {
    if ks != [] {
      DeliveryKept(c, s, Work(w, ks[0]));
      TakesDelivers(c, WorkNext(c, s, w, ks[0]), w, ks[1..], t);
    }
  }

  /** Draining keeps every delivery guarantee. */
  lemma {:induction false} DrainDelivers<B(!new)>(c: Config<B>, s: System<B>, w: nat, passes: seq<Surroundings>,
                                                  t: System<B>)
    requires Delivery(c, s) && Drains(c, s, w, passes, t)
    ensures Delivery(c, t)
    decreases |passes|
  {
    if passes != [] {
      var front, v := passes[..|passes| - 1], passes[|passes| - 1];
      var u, id :| Drains(c, s, w, front, u) && Processes(c, u, w, id, v, t);
      DrainDelivers(c, s, w, front, u);
      DeliveryKept(c, u, Work(w, Load(id, v.at)));
      var loaded := WorkNext(c, u, w, Load(id, v.at));
      TakesDelivers(c, loaded, w, ProcessSteps(c, InputOf(loaded, w, v.at, v.oracle), v), t);
    }
  }
}
