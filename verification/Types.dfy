/** Rows and messages of the execution engine (crates/engine, crates/store/src/engine). */
module EngineTypes {
  import opened Common

  /** Identity of an aggregate; `WakeRef` is what other events wait on. */
  datatype AggregateRef = AggregateRef(kind: string, id: string) {
    function WakeRef(): string { kind + ":" + id }
  }

  datatype AckTarget = AckTarget(peer: string, deliveryId: string)

  /** The inbox deduplication key. Job results have their own family of keys, which
      depend on the job and the generation only. */
  datatype EventId = Named(name: string) | ResultOf(job: string, generation: int)

  datatype JobOutcome = Done(result: Bytes) | Failed(error: string) | Cancelled | Poisoned(error: string)

  datatype JobResult = JobResult(job: string, phase: string, action: string,
                                 generation: int, stale: bool, outcome: JobOutcome)

  datatype Payload = Raw(bytes: Bytes) | Result(result: JobResult)

  datatype Source = Network | Chain | Height | Job | Local

  datatype NewEvent = NewEvent(id: EventId, aggregate: AggregateRef, kind: string, source: Source,
                               payload: Payload, ack: Option<AckTarget>)

  datatype InboxState = Pending | Applied | Failed | Poisoned

  /** A waiting row is a `Pending` row that carries a `waitingRef`. */
  datatype InboxRow = InboxRow(seqNo: nat, aggregate: AggregateRef, kind: string, source: Source,
                               payload: Option<Payload>, ack: Option<AckTarget>,
                               state: InboxState, attempts: int, nextAt: int,
                               waitingRef: Option<string>, createdAt: int, updatedAt: int)

  datatype AggregateRow = AggregateRow(status: string, phase: string, state: Option<string>,
                                       version: int, lastEvent: Option<EventId>)

  datatype OutboxState = Open | Closed

  datatype OutboxRow = OutboxRow(aggregate: AggregateRef, phaseRef: string, kind: string, topic: string,
                                 payload: Bytes, ackSet: Option<map<string, string>>,
                                 state: OutboxState, publishCount: int, nextAt: int, leaseUntil: int,
                                 createdAt: int, updatedAt: int)

  datatype Pool = Cpu | Pegout | NetworkPool

  datatype JobState = Pending | Running | Done | Failed | Cancelled | Poisoned {
    predicate Terminal() { !Pending? && !Running? }
  }

  datatype JobRow = JobRow(aggregate: AggregateRef, phase: string, action: string, pool: Pool,
                           params: Option<Bytes>, deadlineAt: Option<int>,
                           state: JobState, generation: int, leaseUntil: int, attempts: int,
                           nextAt: int, cancelRequested: bool, result: Option<Bytes>, createdAt: int, updatedAt: int)

  /** How a claimed job ended, as its holder reports it. */
  datatype Finish = Done(result: Bytes) | Retry(error: string, nextAt: int) | Failed(error: string)
                  | Poisoned(error: string)

  /** An action of an aggregate held back after a panic. */
  datatype PoisonKey = PoisonKey(aggregate: AggregateRef, action: string)
  datatype PoisonRow = PoisonRow(count: int, blockedUntil: int)

  /** The engine tables. */
  datatype Db = Db(inbox: map<EventId, InboxRow>, nextSeq: nat,
                   aggregates: map<AggregateRef, AggregateRow>,
                   poison: map<PoisonKey, PoisonRow>,
                   outbox: map<string, OutboxRow>,
                   jobs: map<string, JobRow>)

  // ---------------------------------------------------------------- effects

  datatype OutboxMessage = OutboxMessage(id: string, phaseRef: string, kind: string, topic: string,
                                         payload: Bytes, ackSet: Option<map<string, string>>)

  datatype CloseTarget =
    | CloseRow(id: string)
    | ClosePhase(aggregate: AggregateRef, phaseRef: string)
    | CloseAggregate(aggregate: AggregateRef)

  datatype JobSpec = JobSpec(id: string, phase: string, action: string, pool: Pool, params: Bytes,
                             deadlineAt: Option<int>, runAfter: Option<int>)

  datatype JobCancel =
    | CancelJob(id: string)
    | CancelPhase(phase: string)
    | CancelAggregate(aggregate: AggregateRef)
    | CancelAggregatePhase(aggregate: AggregateRef, phase: string)

  /** Everything an apply may change besides its own business rows. */
  datatype Effects = Effects(status: Option<string>, phase: Option<string>, state: Option<Option<string>>,
                             outbox: seq<OutboxMessage>, closes: seq<CloseTarget>,
                             jobs: seq<JobSpec>, cancels: seq<JobCancel>, wakes: seq<string>, acks: seq<AckTarget>)

  const NO_EFFECTS := Effects(None, None, None, [], [], [], [], [], [])

  const JOB_RESULT_KIND := "job_result"
}
