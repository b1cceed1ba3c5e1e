/** The SQL statements of crates/store/src/engine/mod.rs, one function per statement.
    Every function is one atomic write of the single-writer database. */
module EngineTables {
  import opened Common
  import opened EngineTypes

  const NO_ROWS := Db(map[], 0, map[], map[], map[], map[])

  // ------------------------------------------------------------------ inbox

  function NewInboxRow(e: NewEvent, seqNo: nat, now: int): InboxRow {
    InboxRow(seqNo, e.aggregate, e.kind, e.source, Some(e.payload), e.ack,
             InboxState.Pending, 0, now, None, now, now)
  }

  /** Durable in the sense of the ACK rule: applied, or pending and parked. */
  predicate AckAgain(row: InboxRow) {
    row.state.Applied? || (row.state.Pending? && row.waitingRef.Some?)
  }

  /** Record an event once: only a `Failed` row of the same id is put back to `Pending`. */
  function InsertInbox(db: Db, e: NewEvent, now: int): Db {
    if e.id !in db.inbox then
      db.(inbox := db.inbox[e.id := NewInboxRow(e, db.nextSeq, now)], nextSeq := db.nextSeq + 1)
    else if db.inbox[e.id].state.Failed? then
      db.(inbox := db.inbox[e.id := db.inbox[e.id].(state := InboxState.Pending, nextAt := now,
                                                    waitingRef := None, updatedAt := now)])
    else db
  }

  /** The two statements of recording an event: the insert that ignores a known id, and the
      update that re-arms a failed row. */
  function InsertOrIgnore(db: Db, e: NewEvent, now: int): Db {
    if e.id in db.inbox then db else InsertInbox(db, e, now)
  }

  function RearmFailed(db: Db, id: EventId, now: int): Db {
    if id in db.inbox && db.inbox[id].state.Failed? then
      db.(inbox := db.inbox[id := db.inbox[id].(state := InboxState.Pending, nextAt := now, waitingRef := None,
                                                updatedAt := now)])
    else db
  }

  lemma InsertIsBoth(db: Db, e: NewEvent, now: int)
    ensures RearmFailed(InsertOrIgnore(db, e, now), e.id, now) == InsertInbox(db, e, now)
  {
  }

  function InsertInboxAll(db: Db, es: seq<NewEvent>, now: int): Db {
    if es == [] then db else InsertInbox(InsertInboxAll(db, es[..|es| - 1], now), es[|es| - 1], now)
  }

  predicate Blocked(db: Db, aggregate: AggregateRef, action: string, now: int) {
    var key := PoisonKey(aggregate, action);
    key in db.poison && db.poison[key].blockedUntil > now
  }

  predicate Runnable(db: Db, id: EventId, now: int) {
    && id in db.inbox
    && var row := db.inbox[id];
    row.state.Pending? && row.nextAt <= now && !Blocked(db, row.aggregate, row.kind, now)
  }

  function MarkApplied(inbox: map<EventId, InboxRow>, id: EventId, now: int): map<EventId, InboxRow> {
    if id in inbox && inbox[id].state.Pending? then
      inbox[id := inbox[id].(state := InboxState.Applied, payload := None, waitingRef := None, updatedAt := now)]
    else inbox
  }

  function MarkWaiting(inbox: map<EventId, InboxRow>, id: EventId, ref: string, nextAt: int, now: int)
    : map<EventId, InboxRow>
  {
    if id in inbox && inbox[id].state.Pending? then
      inbox[id := inbox[id].(waitingRef := Some(ref), nextAt := nextAt, updatedAt := now)]
    else inbox
  }

  function MarkRetry(db: Db, id: EventId, nextAt: int, now: int): Db {
    if id in db.inbox && db.inbox[id].state.Pending? then
      db.(inbox := db.inbox[id := db.inbox[id].(attempts := db.inbox[id].attempts + 1, nextAt := nextAt,
                                                waitingRef := None, updatedAt := now)])
    else db
  }

  function MarkFailed(db: Db, id: EventId, now: int): Db {
    if id in db.inbox && db.inbox[id].state.Pending? then
      db.(inbox := db.inbox[id := db.inbox[id].(state := InboxState.Failed, attempts := db.inbox[id].attempts + 1,
                                                waitingRef := None, updatedAt := now)])
    else db
  }

  function MarkPoisoned(db: Db, id: EventId, now: int): Db {
    if id in db.inbox && db.inbox[id].state.Pending? then
      db.(inbox := db.inbox[id := db.inbox[id].(state := InboxState.Poisoned, attempts := db.inbox[id].attempts + 1,
                                                waitingRef := None, updatedAt := now)])
    else db
  }

  /** Rows waiting on one of `refs` become runnable at `now`; they keep their reference. */
  function Wake(inbox: map<EventId, InboxRow>, refs: seq<string>, now: int): map<EventId, InboxRow> {
    map id | id in inbox ::
      var row := inbox[id];
      if row.state.Pending? && row.waitingRef.Some? && row.waitingRef.value in refs && row.nextAt > now
      then row.(nextAt := now, updatedAt := now) else row
  }

  function RearmWaiting(inbox: map<EventId, InboxRow>, now: int): map<EventId, InboxRow> {
    map id | id in inbox ::
      var row := inbox[id];
      if row.state.Pending? && row.waitingRef.Some? && row.nextAt > now
      then row.(nextAt := now, updatedAt := now) else row
  }

  function RearmPending(inbox: map<EventId, InboxRow>, now: int): map<EventId, InboxRow> {
    map id | id in inbox ::
      var row := inbox[id];
      if row.state.Pending? && row.nextAt > now then row.(nextAt := now, updatedAt := now) else row
  }

  // ----------------------------------------------------- aggregate and poison

  const FRESH_AGGREGATE := AggregateRow("", "", None, 0, None)

  function UpsertAggregate(before: Option<AggregateRow>, e: Effects, event: EventId): AggregateRow {
    var row := if before.Some? then before.value else FRESH_AGGREGATE;
    AggregateRow(if e.status.Some? then e.status.value else row.status,
                 if e.phase.Some? then e.phase.value else row.phase,
                 if e.state.Some? then e.state.value else row.state,
                 row.version + 1, Some(event))
  }

  function FindAggregate(db: Db, a: AggregateRef): Option<AggregateRow> {
    if a in db.aggregates then Some(db.aggregates[a]) else None
  }

  /** Whether a commit changes what waiters on the aggregate's own reference look at. */
  predicate StatusOrPhaseChanged(before: Option<AggregateRow>, after: AggregateRow) {
    before.None? || before.value.status != after.status || before.value.phase != after.phase
  }

  function MarkPoison(db: Db, key: PoisonKey, now: int, backoff: int -> int): Db {
    var count := if key in db.poison then db.poison[key].count + 1 else 1;
    var hold := if backoff(count) < 0 then 0 else backoff(count);
    db.(poison := db.poison[key := PoisonRow(count, now + hold)])
  }

  function ReleasePoison(db: Db, key: PoisonKey): Db {
    db.(poison := db.poison - {key})
  }

  // ----------------------------------------------------------------- outbox

  function InsertMessage(outbox: map<string, OutboxRow>, a: AggregateRef, m: OutboxMessage, now: int)
    : map<string, OutboxRow>
  {
    if m.id in outbox then outbox
    else outbox[m.id := OutboxRow(a, m.phaseRef, m.kind, m.topic, m.payload, m.ackSet,
                                  Open, 0, now, 0, now, now)]
  }

  function InsertMessages(outbox: map<string, OutboxRow>, a: AggregateRef, ms: seq<OutboxMessage>, now: int)
    : map<string, OutboxRow>
  {
    if ms == [] then outbox
    else InsertMessage(InsertMessages(outbox, a, ms[..|ms| - 1], now), a, ms[|ms| - 1], now)
  }

  predicate ClosesRow(t: CloseTarget, id: string, row: OutboxRow) {
    match t
    case CloseRow(target) => id == target
    case ClosePhase(a, phase) => row.aggregate == a && row.phaseRef == phase
    case CloseAggregate(a) => row.aggregate == a
  }

  function CloseMessage(row: OutboxRow, now: int): OutboxRow {
    if row.state.Open? then row.(state := Closed, payload := [], leaseUntil := 0, updatedAt := now) else row
  }

  function CloseMessages(outbox: map<string, OutboxRow>, ts: seq<CloseTarget>, now: int): map<string, OutboxRow> {
    map id | id in outbox ::
      if exists i | 0 <= i < |ts| :: ClosesRow(ts[i], id, outbox[id]) then CloseMessage(outbox[id], now)
      else outbox[id]
  }

  predicate MessageDue(row: OutboxRow, now: int) {
    row.state.Open? && row.nextAt <= now && row.leaseUntil <= now
  }

  function RecordPublish(row: OutboxRow, nextAt: int, now: int): OutboxRow {
    if row.state.Open? then
      row.(publishCount := row.publishCount + 1, nextAt := nextAt, leaseUntil := 0, updatedAt := now)
    else row
  }

  function RecordPublishFailure(row: OutboxRow, nextAt: int, now: int): OutboxRow {
    if row.state.Open? then row.(nextAt := nextAt, leaseUntil := 0, updatedAt := now) else row
  }

  predicate AckMatches(row: OutboxRow, peer: string, delivery: string) {
    row.state.Open? && row.ackSet.Some? && peer in row.ackSet.value && row.ackSet.value[peer] == delivery
  }

  /** One recipient confirmed: the last one closes the row. */
  function AcknowledgeRow(row: OutboxRow, peer: string, now: int): OutboxRow
    requires row.ackSet.Some?
  {
    var rest := row.ackSet.value - {peer};
    if rest == map[] then
      row.(ackSet := Some(rest), state := Closed, payload := [], leaseUntil := 0, updatedAt := now)
    else row.(ackSet := Some(rest), updatedAt := now)
  }

  function ResetOutboxLeases(outbox: map<string, OutboxRow>): map<string, OutboxRow> {
    map id | id in outbox ::
      if outbox[id].state.Open? && outbox[id].leaseUntil > 0 then outbox[id].(leaseUntil := 0) else outbox[id]
  }

  // ------------------------------------------------------------------- jobs

  function InsertJob(jobs: map<string, JobRow>, a: AggregateRef, j: JobSpec, now: int): map<string, JobRow> {
    if j.id in jobs then jobs
    else
      var after := if j.runAfter.Some? && j.runAfter.value > now then j.runAfter.value else now;
      jobs[j.id := JobRow(a, j.phase, j.action, j.pool, Some(j.params), j.deadlineAt,
                          JobState.Pending, 0, 0, 0, after, false, None, now, now)]
  }

  function InsertJobs(jobs: map<string, JobRow>, a: AggregateRef, js: seq<JobSpec>, now: int): map<string, JobRow> {
    if js == [] then jobs
    else InsertJob(InsertJobs(jobs, a, js[..|js| - 1], now), a, js[|js| - 1], now)
  }

  predicate CancelsRow(c: JobCancel, own: AggregateRef, id: string, row: JobRow) {
    match c
    case CancelJob(target) => id == target
    case CancelPhase(phase) => row.aggregate == own && row.phase == phase
    case CancelAggregate(a) => row.aggregate == a
    case CancelAggregatePhase(a, phase) => row.aggregate == a && row.phase == phase
  }

  /** A pending job is cancelled at once; a running one is flagged for its holder. */
  function CancelRow(row: JobRow, now: int): JobRow {
    match row.state
    case Pending => row.(state := JobState.Cancelled, updatedAt := now)
    case Running => row.(cancelRequested := true, updatedAt := now)
    case _ => row
  }

  function CancelJobs(jobs: map<string, JobRow>, cs: seq<JobCancel>, own: AggregateRef, now: int)
    : map<string, JobRow>
  {
    map id | id in jobs ::
      if exists i | 0 <= i < |cs| :: CancelsRow(cs[i], own, id, jobs[id]) then CancelRow(jobs[id], now)
      else jobs[id]
  }

  /** Another job of the aggregate runs under a live lease. */
  predicate LiveSibling(jobs: map<string, JobRow>, id: string, a: AggregateRef, now: int) {
    exists r | r in jobs :: r != id && jobs[r].aggregate == a && jobs[r].state.Running? && jobs[r].leaseUntil > now
  }

  predicate JobDue(row: JobRow, now: int) {
    || (row.state.Pending? && row.nextAt <= now)
    || (row.state.Running? && row.leaseUntil <= now && !row.cancelRequested)
  }

  /** The guard of the claiming UPDATE, re-checked row by row. */
  predicate Claimable(jobs: map<string, JobRow>, id: string, now: int) {
    id in jobs && JobDue(jobs[id], now) && !LiveSibling(jobs, id, jobs[id].aggregate, now)
  }

  function ClaimedRow(row: JobRow, leaseUntil: int, now: int): JobRow {
    row.(state := JobState.Running, generation := row.generation + 1, leaseUntil := leaseUntil,
         attempts := row.attempts + 1, updatedAt := now)
  }

  /** The lease belongs to the caller while the row runs its generation. */
  predicate Holds(jobs: map<string, JobRow>, id: string, generation: int) {
    id in jobs && jobs[id].generation == generation && jobs[id].state.Running?
  }

  function RenewLease(jobs: map<string, JobRow>, id: string, generation: int, leaseUntil: int, now: int)
    : map<string, JobRow>
  {
    if Holds(jobs, id, generation) then jobs[id := jobs[id].(leaseUntil := leaseUntil, updatedAt := now)]
    else jobs
  }

  datatype FinishOutcome = Finished(state: JobState) | Stale(generation: int, state: JobState) | Missing

  function FinishOutcomeOf(jobs: map<string, JobRow>, id: string, generation: int, f: Finish): FinishOutcome {
    if id !in jobs then Missing
    else if !Holds(jobs, id, generation) then Stale(jobs[id].generation, jobs[id].state)
    else Finished(FinishState(jobs[id], f))
  }

  function FinishState(row: JobRow, f: Finish): JobState {
    match f
    case Done(_) => if row.cancelRequested then JobState.Cancelled else JobState.Done
    case Retry(_, _) => if row.cancelRequested then JobState.Cancelled else JobState.Pending
    case Failed(_) => JobState.Failed
    case Poisoned(_) => JobState.Poisoned
  }

  function FinishedRow(row: JobRow, f: Finish, now: int): JobRow {
    row.(state := FinishState(row, f),
         result := if f.Done? then Some(f.result) else None,
         nextAt := if f.Retry? && !row.cancelRequested then f.nextAt else 0,
         leaseUntil := 0, updatedAt := now)
  }

  /** Only the current generation of a running row may write. */
  function FinishJob(jobs: map<string, JobRow>, id: string, generation: int, f: Finish, now: int): map<string, JobRow> {
    if Holds(jobs, id, generation) then jobs[id := FinishedRow(jobs[id], f, now)] else jobs
  }

  predicate LapsedCancelled(row: JobRow, now: int) {
    row.state.Running? && row.leaseUntil <= now && row.cancelRequested
  }

  function SweepJobs(jobs: map<string, JobRow>, now: int): map<string, JobRow> {
    map id | id in jobs ::
      if LapsedCancelled(jobs[id], now)
      then jobs[id].(state := JobState.Cancelled, leaseUntil := 0, updatedAt := now) else jobs[id]
  }

  function ClearResults(jobs: map<string, JobRow>, ids: seq<string>, now: int): map<string, JobRow> {
    map id | id in jobs ::
      if id in ids && jobs[id].state.Terminal()
      then jobs[id].(result := None, params := None, updatedAt := now) else jobs[id]
  }

  function ResetJobLeases(jobs: map<string, JobRow>): map<string, JobRow> {
    map id | id in jobs ::
      if jobs[id].state.Running? && jobs[id].leaseUntil > 0 then jobs[id].(leaseUntil := 0) else jobs[id]
  }

  // ------------------------------------------------------------------ purge

  function PurgeInbox(inbox: map<EventId, InboxRow>, before: int): map<EventId, InboxRow> {
    map id | id in inbox && (inbox[id].state.Pending? || inbox[id].updatedAt >= before) :: inbox[id]
  }

  function PurgeRejectedNetwork(inbox: map<EventId, InboxRow>, before: int): map<EventId, InboxRow> {
    map id | id in inbox && !(inbox[id].source.Network? && inbox[id].state.Failed? && inbox[id].updatedAt < before)
      :: inbox[id]
  }

  function PurgeOutbox(outbox: map<string, OutboxRow>, before: int): map<string, OutboxRow> {
    map id | id in outbox && (outbox[id].state.Open? || outbox[id].updatedAt >= before) :: outbox[id]
  }

  function PurgeJobs(jobs: map<string, JobRow>, before: int): map<string, JobRow> {
    map id | id in jobs && (!jobs[id].state.Terminal() || jobs[id].updatedAt >= before) :: jobs[id]
  }
}
