# Verification of the bridge node's engine and protocol core

A Dafny model of the durable execution engine that drives a bridge node, of the
Graph aggregate that runs on it, and of the self-contained protocol pieces
around them. Everything is proved for all inputs and all runs; nothing here
executes the node.

## What is modelled

**The execution engine.** `Types.dfy`, `Tables.dfy` and `Transactions.dfy` hold
the engine tables, one function per SQL statement, and the three multi-statement
transactions (the commit of an apply, a job completion, the cancel sweep).
`Machine.dfy` is the engine as a step machine: a step is one committed write of
the single-writer database or one move of the volatile state beside it (a shard
worker or a submitter between two statements, a process-local job holder, a crash that
forgets them). Steps interleave freely. A history records commits, ACKs sent and received,
claims, ends of leases, recorded results and purges, so that guarantees can speak
about whole runs.

- `Ownership.dfy`: while a worker stands on an event, nobody else rewrites its row.
- `Delivery.dfy`: at-most-once acceptance, ACK soundness, no lost wakeup.
- `Replay.dfy`: the stored state is a sequential replay of the history. The replay has
  its own definition of sends, closes, enqueues, cancels and outcomes, and its handlers
  read the replayed tables.
- `Fencing.dfy`, `Results.dfy`, `JobRuns.dfy`, `Leases.dfy`: generations, leases,
  result rows, repeated completions, and where those guarantees stop.
- `Cancels.dfy`, `LateSuccess.dfy`: a job that was asked to cancel is over, and when its
  aggregate is nevertheless told of a success.
- `Worker.dfy`, `Executor.dfy`, `Publisher.dfy`, `Runtime.dfy`, `Backoff.dfy`: the
  imperative code of the engine, each method proved equal to the table functions
  or to steps of the machine.

**The Graph aggregate.** `Graph.dfy` is the handler as a function of what it sees;
`GraphHandler.dfy` is the same handler as code that fills an apply context.
`GraphReplies.dfy` proves what every reply keeps, and `GraphRuns.dfy`,
`GraphParks.dfy`, `GraphWaits.dfy` and `GraphRetirement.dfy` carry that over whole
runs of the engine. `GraphStatus.dfy` is the status machine with its three writers.

**Self-contained pieces.** `Prover.dfy` (GPU gate and drain), `Signing.dfy` (one
transcript per nonce), `VerifierSetup.dfy` (arrival, freeze, record, seal),
`Timelocks.dfy`, `CanonicalJson.dfy` and `JsonText.dfy` (the signed request body),
`Framing.dfy` and `Text.dfy` (bytes fed to hashes, joined identities), `Bech32.dfy`
and `BitGroups.dfy`, `Base58.dfy`, with `KeyOrder.dfy`, `Arithmetic.dfy` and
`Common.dfy` beneath.

## How the source is read

- Time, the retry delay a worker chooses, the state of channels, what a handler
  reads outside the database, and every interruption of a handler are parameters
  of a step. Each statement of the database is atomic.
- Handlers are functions of everything they can see (`ApplyInput`). Handlers and
  producers record events under names of their own; only the executor records job
  results (`RecordsProducers`, `ProducerEvent`).
- A job result's inbox key is the pair of job id and generation; the rendered text
  is proved to determine that pair (`Framing.ResultKeyInjective`).
- The two lease resets of startup recovery are one step.
- Public keys are hexadecimal text, which orders as the bytes do.
- A network message whose instance failed is applied without effect, as the code does
  (node/src/aggregates/graph.rs:505-508); the comment above that code says it is rejected.
- Graph ids, instance ids and operator keys are strings; a stored status is one of
  the eleven protocol statuses. Byte formats are parameters of `Role`. What a job of
  an action returns is `Role.plan`.
- Conditions on the rest of the node, each documented in the source: peg-out plans
  send no messages and ask for no follow-up jobs; peg-out events enqueue peg-out jobs
  only; stored definitions keep their instance, operator and slot; an instance that
  failed stays failed; a session opened by another aggregate has no build in flight
  (`Documented`, `OthersDocumented`). `GraphRuns.EngineExists` shows they can be met.

## Where the code does less than a reader might expect

- `EngineLeases.LateRenewalOverlaps`: a holder whose lease lapsed can renew it after a
  sibling was claimed, and then two jobs of one aggregate run under live leases,
  although the claim is documented as one at a time (crates/store/src/engine/mod.rs:1330-1334).
  `EngineLeases.RenewalExclusiveIff` says exactly when a renewal is safe.
- `EngineLeases.PurgeRestartsGenerations`: a purged job id that is enqueued again
  starts at generation 0, so the fence holds per retained row.
- `EngineLeases.SweptOutcomeIsDropped`: the outcome of a holder whose job the cancel
  sweep ended is never recorded; `EngineLeases.LateOutcomeEntersIff` gives the condition.
- `EngineJobRuns.PurgedResultComesBack`: a completion repeated after its result row was
  purged adds the result once more, marked stale; `EngineJobRuns.RepeatChangesNothingIff`
  is exact. A repeat otherwise only re-arms a result event that had been rejected.
- `EngineLateSuccess.SuccessCanFollowACancel`: after an aggregate asked a job to cancel it
  can still be told of a success, by an earlier holder that lost its lease; the result is
  marked stale, and the Graph aggregate applies it all the same
  (node/src/aggregates/graph.rs:684-704). `EngineCancels.ToldOfSuccessIff` is exact.
- `EngineBackoff.DoublingExactIff`: doubling stops at 2^30, so a larger cap is never reached.
- `ProverGate.DrainCanPrecedeASpawn`: a drain can report success before a unit that
  already passed its second check is spawned; `ProverGate.DrainIsFinalIff` is exact.
- `GraphParks.UnfinishedBuildWakesIff`: only a build that failed, with its operator known,
  wakes the builds behind it; the result of a panic or a cancel wakes nobody by itself.
- `Timelocks.RegtestAcceptsDisorder`: on Regtest a required gap of zero always passes.
- `GraphStatuses.ObsoletedPathsDoNotCollapse`: paths through Obsoleted reach states no
  direct edge does.
- `GraphStatuses.RejectedForGoodIff`: a write answered with a rejection can be allowed again
  later, once the graph was obsoleted.
- `Framing.JobIdentityAmbiguous`: names that contain ':' make job identities collide;
  `Framing.IdentityIsOwnIff` is exact.

## Model

| member | source | states |
|---|---|---|
| EngineOwnership.StepIsPassive | crates/engine/src/worker.rs:147-280 | every step of the engine leaves every inbox row but the one its own worker writes unchanged, except for bringing a pending row forward or re-arming a failed one; rows disappear only when not pending |
| EngineOwnership.OneWorkerPerEvent | crates/engine/src/event.rs:27-33 | the shard rule: no two workers are ever between statements on the same event |
| EngineOwnership.OwnershipKept | crates/engine/src/worker.rs:95-115 | the row a worker read stays pending and the same event until that worker writes it, under every interleaving |
| EngineDelivery.DeliveryKept | crates/engine/src/worker.rs:147-412 | every step keeps acceptance, ACK soundness and the wakeup invariant together |
| EngineDelivery.DeliveryOverRuns | crates/engine/src/worker.rs:147-412 | those invariants hold in every state of every run |
| EngineDelivery.AcceptedOncePerRetention | crates/engine/src/worker.rs:282-412 | between two acceptances of one event id lies a purge of its row, whatever duplicates, parks, failures, timeouts, panics, crashes and restarts happen |
| EngineDelivery.AckOnlyWhenDurable | crates/engine/src/worker.rs:116-145 | every ACK, for an event's own target or one its handler named, is sent only after that event was durably applied, parked or rejected |
| EngineDelivery.ReAckedOnlyWhenKept | crates/engine/src/runtime.rs:145-179 | a duplicate submission is ACKed only on a read that found the event applied or parked since its row was last purged, whatever happens between the insert, the read, the re-arm and the ACK |
| EngineDelivery.AcceptedNeverRunsAgain | crates/store/src/engine/mod.rs:551-568 | over whole runs, no worker stands on an accepted event again unless its row was purged since |
| EngineDelivery.StillParkedMeansUnchanged | crates/engine/src/worker.rs:369-403 | an event still parked once the clock passed every commit has seen no commit of itself and no change of what it waits for since its park |
| EngineDelivery.CommitAlwaysMarks | crates/engine/src/worker.rs:387-403 | whenever a worker commits, the row it read is still there, pending and unchanged, so the mark is never skipped |
| EngineReplay.CommitFolds | crates/engine/src/worker.rs:282-412 | one commit equals one replayed entry: the handler, run again on the folded tables, gives the business rows, the aggregate row, and sends, closes, enqueues, cancels and clears in the order of the commit |
| EngineReplay.StepFolds | crates/engine/src/worker.rs:147-280 | every step changes the stored state exactly as replaying the entries it leaves in the history; attempts, rejections, crashes and restarts change nothing |
| EngineReplay.StoredIsReplay | crates/engine/src/worker.rs:147-412 | in every state of every run, business rows, aggregate rows, outbox messages (payload, recipients left, open or closed) and jobs (parameters, state, generation, cancel request, result) equal a sequential execution of the committed applies, the confirmed deliveries, the claims and the ends of leases |
| EngineFencing.CommitJobsQuiet | crates/engine/src/worker.rs:313-366 | a commit never changes a generation, never starts a job and never revives an ended one |
| EngineFencing.StepMoves | crates/engine/src/jobs.rs:133-168 | in every step generations only grow, only a claim leaves a new generation, which runs, and ended rows stay as they ended |
| EngineFencing.SpentStays | crates/engine/src/jobs.rs:306-364 | a lease that is over for a generation is over for good |
| EngineFencing.FencedKept | crates/engine/src/jobs.rs:133-168 | holders of a retained job hold distinct generations, none newer than its row |
| EngineFencing.EndsOnceKept | crates/engine/src/jobs.rs:366-452 | at most one end of a retained job is ever on record and its row shows it |
| EngineResults.RowKeepsContent | crates/store/src/engine/mod.rs:441-510 | no step rewrites the content of a stored event; only an applied row drops its payload |
| EngineResults.SweepStores | crates/engine/src/jobs.rs:92-131 | every swept job whose result key is new leaves exactly its own cancelled result in the inbox |
| EngineResults.StepRecords | crates/engine/src/jobs.rs:431-452 | a result is recorded under a new key only, once per step, and stored as recorded |
| EngineResults.StepSound | crates/engine/src/jobs.rs:376-407 | a result without the stale mark is recorded only by the generation that ended the job |
| EngineResults.RecordedOnceGrows | crates/engine/src/event.rs:157-175 | between two recordings of one result lies a purge of its row |
| EngineJobRuns.JobInvariantOverRuns | crates/engine/src/jobs.rs:133-452 | fencing, single ends, sound and unique results hold in every state of every run that keeps the job |
| EngineJobRuns.GenerationsOnlyGrow | crates/store/src/engine/mod.rs:1336-1393 | over any stretch of a run the generation of a retained job only grows, and an ended job keeps its state and generation |
| EngineJobRuns.OlderHolderNeverWrites | crates/engine/src/jobs.rs:306-452 | once a newer generation was claimed, no renewal and no completion of the older holder changes a job row or the poison table, however late |
| EngineJobRuns.OneTerminalCompletion | crates/engine/src/jobs.rs:366-452 | at most one terminal completion of a retained job takes effect in a whole run |
| EngineJobRuns.SupersededOutcomeEntersOnce | crates/engine/src/jobs.rs:376-452 | after a superseded holder recorded its terminal outcome the inbox holds exactly that outcome under its key, marked stale, whether it entered now or before, and it enters once while its row is kept |
| EngineJobRuns.RepeatChangesNothingIff | crates/engine/src/jobs.rs:252-288 | a completion recorded again at any later point changes no job row and no poison, and changes no result exactly when its result row was not purged since; after a purge the outcome comes back once, stale, and nothing else changes |
| EngineJobRuns.PurgedResultComesBack | crates/engine/src/jobs.rs:376-407 | from any state with a spent holder and an old, handled result row, a purge followed by the repeated completion brings the result back |
| EngineResults.StepNewIsRecorded | crates/engine/src/runtime.rs:145-179 | a result row appears only with the record of a completion or of the cancel sweep |
| EngineResults.StaleIsOwnKept | crates/engine/src/jobs.rs:394-407 | what is recorded stale under a holder's generation is the outcome that very holder reached |
| EngineCancels.StepStops | crates/store/src/engine/mod.rs:1440-1532 | no step lets a job that was asked to cancel wait, run under a new generation or be done, and only running jobs are asked |
| EngineCancels.CancelledNeverRunsAgain | crates/store/src/engine/mod.rs:1440-1532 | over whole runs, a job asked to cancel is neither pending nor done in any later state that kept its row, and keeps its generation |
| EngineCancels.CancelledNeverClaimed | crates/store/src/engine/mod.rs:1326-1393 | and at no later time can it be claimed |
| EngineCancels.StepTellsDoneIff | crates/engine/src/jobs.rs:376-407 | a step tells the aggregate of a job asked to cancel of a success if and only if a holder without its lease records one and its generation has no result yet |
| EngineCancels.ToldOfSuccessIff | crates/engine/src/jobs.rs:376-452 | the same over whole runs, from the request on, while the row is kept |
| EngineCancels.ToldOfSuccessIsStale | crates/engine/src/jobs.rs:394-407 | over whole runs such a success is always marked stale; the end of the job itself is reported as a cancel or a failure |
| EngineLateSuccess.SuccessCanFollowACancel | crates/engine/src/jobs.rs:394-407 | a run from the empty engine in which the first holder's success is reported after a second claim and the request to cancel |
| EngineLeases.ClaimKeepsExclusive | crates/store/src/engine/mod.rs:1336-1393 | a claim keeps leases exclusive per aggregate |
| EngineLeases.RenewalExclusiveIff | crates/store/src/engine/mod.rs:1417-1436 | a renewal keeps leases exclusive if and only if the holder's own lease has not lapsed or no sibling is live |
| EngineLeases.LateRenewalOverlaps | crates/store/src/engine/mod.rs:1417-1436 | any two due jobs of one aggregate can be driven to two live leases by a late renewal |
| EngineLeases.OneLiveJobPerAggregate | crates/store/src/engine/mod.rs:1326-1335 | with a monotone clock and renewals in time, no aggregate ever has two jobs under live leases, over whole runs |
| EngineLeases.LateOutcomeEntersIff | crates/engine/src/jobs.rs:394-407 | the outcome of a holder without a lease enters the inbox if and only if it is terminal and its generation has no result yet; then it is that outcome, stale |
| EngineLeases.SweptOutcomeIsDropped | crates/engine/src/jobs.rs:92-131 | after the sweep ended a job its holder's completion records nothing |
| EngineLeases.PurgeRestartsGenerations | crates/store/src/engine/mod.rs:754-778 | a purged and re-enqueued job id restarts its generations, so an old holder of generation 1 passes the new fence; without the purge the re-enqueue changes nothing |
| EngineWorker.WriteOutbox | crates/engine/src/worker.rs:293-312 | the send loop followed by the close loop leaves the outbox as all sends and then all closes at once |
| EngineWorker.WriteJobs | crates/engine/src/worker.rs:313-366 | the enqueue loop followed by the cancel loop leaves the jobs as all enqueues and then all cancels at once |
| EngineWorker.WriteInbox | crates/engine/src/worker.rs:378-403 | waiters are woken before the event itself is marked applied or waiting |
| EngineWorker.CommitEffects | crates/engine/src/worker.rs:282-412 | the commit, statement by statement, leaves exactly the tables of the commit transaction |
| EngineWorker.SendAcks | crates/engine/src/worker.rs:124-135 | the dispatch loop hands over the ACKs in order and drops exactly those that find the channel full |
| EngineWorker.ProcessEvent | crates/engine/src/worker.rs:147-280 | processing one event takes exactly the machine steps of its outcome, answers exactly that outcome, ends idle, leaves exactly its entries in the history, and hands over the handler's and the event's own ACKs only when applied or parked, its own when rejected |
| EngineWorker.NextRunnable | crates/store/src/engine/mod.rs:528-549 | the runnable, unblocked event of the shard with the smallest sequence number, or none if there is none |
| EngineWorker.ProcessNext | crates/engine/src/worker.rs:95-115 | one turn of the drain loop is a load step and the steps of that event |
| EngineWorker.DrainShard | crates/engine/src/worker.rs:95-115 | draining a shard is a run of machine steps, lowest sequence number first, and stops only when nothing is runnable or the token fired |
| EngineWorker.DrainDelivers | crates/engine/src/worker.rs:95-115 | a drained shard keeps every delivery guarantee |
| EngineExecutor.SelectFirst | crates/store/src/engine/mod.rs:1336-1372 | the first rows by next time and creation, without repeats, up to the limit, and all of them when the limit is not reached |
| EngineExecutor.ClaimAllSound | crates/store/src/engine/mod.rs:1336-1393 | claiming a batch claims each row at most once, keeps leases exclusive, and passes a candidate over only for a live job of its aggregate |
| EngineExecutor.ClaimDueJobs | crates/store/src/engine/mod.rs:1336-1393 | the claim loop selects unblocked due jobs in order and leaves the tables and rows of claiming them in turn |
| EngineExecutor.RenewOnce | crates/engine/src/jobs.rs:306-364 | a tick extends the lease exactly while it is held, and otherwise tells its own finish from a takeover |
| EngineExecutor.ReportLast | crates/engine/src/jobs.rs:376-452 | the order in which a completion writes job, poison and inbox does not matter |
| EngineExecutor.RecordJobFinish | crates/engine/src/jobs.rs:366-452 | the completion, statement by statement, leaves the tables of the completion transaction and wakes the worker exactly when a new row entered the inbox |
| EngineExecutor.FinishLapsedCancelled | crates/engine/src/jobs.rs:92-131 | the sweep finishes each lapsed cancelled job once and reports each once |
| EngineExecutor.RecordUntilSeen | crates/engine/src/jobs.rs:247-291 | however commits and errors go, the retry loop applies the completion at most once, stops when a commit is seen, and tries at most twice after the lease is lost |
| EngineBackoff.DoublingExactIff | crates/engine/src/config.rs:14-31 | the doubling delay equals min(cap, base * 2^(n-1)) for every attempt n if and only if cap <= base * 2^30 |
| EngineBackoff.DelayStopsShort | crates/engine/src/config.rs:26-29 | with a larger cap the delay of attempt 32 is smaller than the documented one |
| EngineBackoff.PositiveIff | crates/engine/src/config.rs:14-31 | a backoff never retries at once exactly when all its steps, or its base and cap, are positive |
| EnginePublisher.ClaimMessages | crates/store/src/engine/mod.rs:1073-1109 | due messages are leased in order up to the limit and nothing else changes |
| EnginePublisher.PublishBatch | crates/engine/src/outbox.rs:71-113 | each claimed row is attempted once and rescheduled by its outcome |
| EnginePublisher.DrainOutbox | crates/engine/src/outbox.rs:52-118 | with a fixed clock and positive backoff the drain ends, attempts each due row exactly once, leaves none due, counts successes, and touches no other row; a zero batch does nothing |
| EnginePublisher.AcknowledgeOutbox | crates/store/src/engine/mod.rs:1205-1260 | an ACK changes one row that waits for exactly this peer and delivery, closes it exactly when nobody else is left, and changes nothing when no row matches |
| EnginePublisher.AcksCommute | crates/store/src/engine/mod.rs:1205-1260 | ACKs of two peers leave the same row in either order and close it exactly when they were the last two |
| EngineRuntime.Submit | crates/engine/src/runtime.rs:145-179 | the statements of a submission are the submit steps of the machine; an event is recorded once, a duplicate ACKed again only when applied or parked, and only a failed one re-armed |
| EngineRuntime.InOneGo | crates/store/src/engine/mod.rs:441-510 | a submission that nothing interrupts leaves exactly the recorded or re-armed row and its ACK |
| EngineRuntime.StartupRecovery | crates/engine/src/runtime.rs:387-401 | recovery is the re-arm and lease-reset steps of the machine |
| EngineRuntime.RecoveryFrees | crates/engine/src/runtime.rs:387-401 | after recovery every pending event is runnable unless poisoned, every due message claimable, every running job claimable or left to the sweep |
| EngineRuntime.RecheckWaiting | crates/engine/src/runtime.rs:403-439 | after a re-check every parked event is due |
| EngineRuntime.PurgeTerminal | crates/engine/src/runtime.rs:441-464 | housekeeping is the three purge steps of the machine |
| EngineRuntime.PurgeOnlyFinished | crates/store/src/engine/mod.rs:754-778 | a purge removes exactly the finished rows older than the horizon and changes no other row |
| GraphStatuses.OutcomeTells | crates/store/src/localdb/graph.rs:450-552 | whatever other writers do between the conditional update and the read, the answer is Applied exactly when this write moved the status; otherwise it tells the status at the read, and a status that became current in between was moved there by another writer |
| GraphStatuses.RejectedForGoodIff | crates/store/src/schema.rs:432-508 | a rejected write can never be allowed later if and only if the status is closed or the write is open to presigned graphs only |
| GraphStatuses.EdgesMove | crates/store/src/schema.rs:432-508 | no edge leaves a closed state, stays in place, or enters the presigned states again |
| GraphStatuses.ClosedIsAbsorbing | crates/store/src/schema.rs:383-409 | in any run of writes from the three sources closed states stay, OperatorPresigned and CommitteePresigned are never re-entered |
| GraphStatuses.TransitionsBounded | crates/store/src/schema.rs:432-508 | a run applies at most 6 + 5k transitions, k being its entries into Obsoleted |
| GraphStatuses.BoundIsTight | crates/store/src/schema.rs:432-508 | for every k some run with k entries applies exactly 6 + 5k |
| GraphStatuses.PathsCollapse | crates/store/src/schema.rs:432-437 | a chain-reconcile path from outside Obsoleted without an intermediate Obsoleted can be taken in one direct step |
| GraphStatuses.ObsoletedPathsDoNotCollapse | crates/store/src/schema.rs:475-482 | paths through or from Obsoleted need not have a direct edge |
| GraphStatuses.NamesDiffer | crates/store/src/schema.rs:344-362 | stored names identify statuses |
| GraphModel.SlotRefInjective | node/src/aggregates/graph.rs:139-143 | a slot reference determines the operator and the slot |
| GraphModel.OnePast | node/src/aggregates/graph.rs:1083-1109 | the next slot is above every stored slot and exactly one past the highest |
| GraphReplies.MessageTame | node/src/aggregates/graph.rs:537-674 | a message stores nothing, asks for no build, and does nothing for a retired graph |
| GraphReplies.ResultTame | node/src/aggregates/graph.rs:676-787 | a job result asks for no build job and, on a retired graph, sends nothing and enqueues no setup or post job |
| GraphReplies.AbandonTame | node/src/aggregates/graph.rs:820-877 | abandoning sends and enqueues nothing and moves no status but its own |
| GraphReplies.DecideTame | node/src/aggregates/graph.rs:937-1075 | whatever the event, an apply opens no session, stores no definition, and enqueues a build only when allowed to |
| GraphReplies.ReplyTame | node/src/aggregates/graph.rs:880-1081 | every reply mirrors the stored status, wakes the slot on a change, closes and cancels on retirement, and parks a build only on the operator's next slot |
| GraphRuns.EngineExists | node/src/aggregates/graph.rs:937-1081 | the conditions on the engine can be met for every documented role |
| GraphRuns.CommitBuilds | crates/engine/src/worker.rs:313-366 | a build in flight after a commit was in flight before or was asked for by that very graph |
| GraphRuns.OneBuildKept | node/src/aggregates/graph.rs:789-818 | every step keeps at most one building session per operator |
| GraphRuns.BuildsAreSerialized | node/src/aggregates/graph.rs:1111-1166 | in every reachable state at most one session per operator without definition and with a live instance has a pending or running build |
| GraphRuns.SerializedFrom | node/src/aggregates/graph.rs:1111-1166 | the same for every engine whose replies are tame, in every reachable state |
| GraphParks.NextSlotMoves | node/src/aggregates/graph.rs:1083-1109 | when the next slot moves on, the graph that took it is stored and not yet mirrored |
| GraphParks.MirroringWakes | node/src/aggregates/graph.rs:886-895 | the commit that mirrors a stored graph wakes its slot |
| GraphParks.ParksOverRuns | node/src/aggregates/graph.rs:808-815 | in every reachable state every build park is on the next slot, on a stored unmirrored slot, or was woken since |
| GraphParks.ParkedBuildsWaitOnOpenSlots | node/src/aggregates/graph.rs:789-818 | a build_ready row that is still parked waits on a slot of the operator whose session it had at its last park, and that slot is the next one or stored but not mirrored |
| GraphParks.GivingUpWakesNextSlot | node/src/aggregates/graph.rs:713-719 | a failed build and an abandoned setup wake the operator's next slot |
| GraphParks.NobodyParkedBehindAFailure | node/src/aggregates/graph.rs:713-719 | when the builder gives up, every earlier park of the operator is woken, was woken, or waits on a slot stored and not yet mirrored |
| GraphParks.UnfinishedBuildWakesIff | node/src/aggregates/graph.rs:713-726 | a build that did not succeed wakes the operator's next slot if and only if it failed and its operator is known |
| GraphWaits.ReplyParksOnMissing | node/src/aggregates/graph.rs:494-674 | whatever event parks, outside peg-out, it parks on a slot or graph whose definition is not stored |
| GraphWaits.MirroringWakesOwn | crates/engine/src/worker.rs:369-386 | the commit that mirrors a stored graph wakes those who wait on the graph itself |
| GraphWaits.WaitsOverRuns | node/src/aggregates/graph.rs:494-674 | in every reachable state every park waits for a missing definition, for one not mirrored yet, or was woken since |
| GraphWaits.ParkedEventsWaitForMissing | node/src/aggregates/graph.rs:494-674 | over whole runs, no build, new graph or round message stays parked on a definition that is stored and mirrored |
| GraphRetirement.CommitCloses | crates/engine/src/worker.rs:293-312 | closes come after sends: closing the aggregate leaves none of its deliveries open |
| GraphRetirement.CommitStops | crates/engine/src/worker.rs:313-366 | cancels come after enqueues: cancelling both phases leaves no setup or post job to run |
| GraphRetirement.RetiredStoppedKept | node/src/aggregates/graph.rs:880-934 | every step keeps retired graphs stopped |
| GraphRetirement.RetiredGraphsAreStopped | node/src/aggregates/graph.rs:880-934 | whenever a graph's mirrored status is retired it has no open outbox row, no pending setup or post job, and every running one was asked to cancel |
| GraphRetirement.StoppedOverRuns | node/src/aggregates/graph.rs:880-934 | the same for every engine whose replies are tame, in every reachable state |
| GraphHandler.ApplyContext.NextSlotOf | node/src/aggregates/graph.rs:1083-1109 | the scan returns one past the operator's highest stored slot |
| GraphHandler.ApplyContext.HasLiveBuild | node/src/aggregates/graph.rs:1151-1161 | whether a build job of the graph is pending or running |
| GraphHandler.ApplyContext.BuildingSibling | node/src/aggregates/graph.rs:1134-1166 | finds another building session of the operator exactly when there is one, with the slot it will take |
| GraphHandler.ApplyContext.ReleaseSetupSession | node/src/aggregates/graph.rs:1111-1132 | closes deliveries, cancels jobs, deletes the session and wakes the next slot, and nothing else |
| GraphHandler.ApplyContext.CommitPlan | node/src/aggregates/graph.rs:732-787 | a plan's loops leave the effects, records and session of the plan |
| GraphHandler.ApplyContext.EnqueueNext | node/src/aggregates/graph.rs:753-771 | follow-ups are appended behind what the apply already decided, and nothing else changes |
| GraphHandler.PlanFollowUps | node/src/aggregates/graph.rs:753-771 | a planned build becomes an event, every other follow-up a job of its phase, in order |
| GraphHandler.ApplyContext.JobResult | node/src/aggregates/graph.rs:676-730 | a result is applied by its outcome and its stored result cleared |
| GraphHandler.ApplyContext.StartBuild | node/src/aggregates/graph.rs:789-818 | a build starts, waits on the sibling's slot, or is dropped |
| GraphHandler.ApplyContext.Abandon | node/src/aggregates/graph.rs:820-877 | abandoning follows the stored row or the open session |
| GraphHandler.ApplyContext.ParkOnDefinition | node/src/aggregates/graph.rs:494-524 | a message without its definition is dropped for a failed instance, refused after the deadline, and otherwise parked, with a fetch only for a registered author |
| GraphHandler.ApplyContext.AwaitPreviousSlot | node/src/aggregates/graph.rs:595-636 | a new graph is refused when its slot is taken and parked while the previous slot is missing |
| GraphHandler.ApplyContext.AwaitRound | node/src/aggregates/graph.rs:637-664 | a round message needs its definition and an open round |
| GraphHandler.ApplyContext.RoutedMessage | node/src/aggregates/graph.rs:581-673 | each kind of message is dropped, refused, parked or handed to its job, falling through as the source does |
| GraphHandler.ApplyContext.Message | node/src/aggregates/graph.rs:537-674 | the message code, guard by guard, computes the message decision |
| GraphHandler.ApplyContext.Start | node/src/aggregates/graph.rs:963-996 | the start code computes the start decision |
| GraphHandler.ApplyContext.TakePulled | node/src/aggregates/graph.rs:997-1021 | the code for a pulled definition computes its decision |
| GraphHandler.ApplyContext.Pull | node/src/aggregates/graph.rs:1047-1061 | a pull is fetched exactly when the definition is not stored |
| GraphHandler.ApplyContext.Pegout | node/src/aggregates/graph.rs:1040-1046 | the jobs, cancels and status move of a peg-out event are appended in order |
| GraphHandler.ApplyContext.Finish | node/src/aggregates/graph.rs:879-934 | the status is mirrored and completed phases are closed |
| GraphHandler.ApplyContext.Route | node/src/aggregates/graph.rs:937-1075 | routing an event to its handler code computes the decision the run theorems are about |
| GraphHandler.Apply | node/src/aggregates/graph.rs:937-1081 | the handler code computes exactly the handler function the run theorems are about |
| ProverGate.AtMostOneUnitRuns | proof-builder-rpc/src/prover.rs:153-180 | with the gate on at most one unit runs at any time, dropped callers included |
| ProverGate.NothingStartsAfterClosing | proof-builder-rpc/src/prover.rs:231-239 | a unit that has not passed its second closing check when shutdown begins never starts |
| ProverGate.DrainedAfterAll | proof-builder-rpc/src/prover.rs:241-245 | drain reports success only after every unit spawned before it has finished |
| ProverGate.DrainIsFinalIff | proof-builder-rpc/src/prover.rs:231-250 | after a reported drain no continuation ever runs a unit, if and only if no call stood between its second check and its spawn |
| ProverGate.DrainCanPrecedeASpawn | proof-builder-rpc/src/prover.rs:164-172 | a run in which a unit starts after drain reported success |
| ProverGate.ProverRuntime.EnterCall | proof-builder-rpc/src/prover.rs:156-167 | a call is refused exactly when closing |
| ProverGate.ProverRuntime.PassAndSpawn | proof-builder-rpc/src/prover.rs:168-174 | the second check refuses and returns the permit, or the tracked unit starts with it |
| ProverGate.ProverRuntime.CompleteUnit | proof-builder-rpc/src/prover.rs:171-180 | a finished unit returns its permit |
| ProverGate.ProverRuntime.BeginShutdown | proof-builder-rpc/src/prover.rs:231-239 | shutdown cancels the token, closes the gate and the tracker, in that order |
| ProverGate.ProverRuntime.InFlight | proof-builder-rpc/src/prover.rs:247-249 | counts the running units |
| ProverGate.ProverRuntime.TryDrain | proof-builder-rpc/src/prover.rs:241-245 | one look of a drain succeeds exactly when the tracker is closed and empty |
| SigningAuthorizations.BoundKept | crates/store/src/signing.rs:17-56 | no step rebinds a nonce or changes an answer |
| SigningAuthorizations.OneTranscriptPerNonce | crates/store/src/signing.rs:17-56 | across every interleaving all permissions ever given map a nonce to one transcript and at most one call per nonce is told it was first |
| SigningAuthorizations.ConflictsAreReal | crates/store/src/signing.rs:43-55 | a conflict names the transcript that owns the nonce, and only a different one conflicts |
| SigningAuthorizations.AuthorizationTable.AuthorizeSigning | crates/store/src/signing.rs:19-55 | authorized exactly when new, a conflict exactly when bound to another transcript, and no binding is ever changed |
| KeyOrder.SortSorts | node/src/aggregates/graph_setup.rs:79-79 | the canonical sort orders by key and keeps every element |
| KeyOrder.SortedIsUnique | node/src/aggregates/graph_setup.rs:79-79 | with distinct keys the sorted order is the only one |
| VerifierSetup.FreezeIgnoresArrival | node/src/aggregates/graph_setup.rs:60-88 | for distinct keys the outcome of a freeze and the frozen pool do not depend on the order of arrival |
| VerifierSetup.SetupOnlyFillsIn | node/src/aggregates/graph_setup.rs:60-247 | from the empty setup, after any sequence of arrivals, freezes, records and seals, candidates, frozen slots and cuts, recorded data and proof references, and the sealed selection never change |
| VerifierSetup.SoundOverRuns | node/src/aggregates/graph_jobs.rs:376-414 | on every such run no two candidates share a peer or an x-only key, data belongs to its candidate, and every sealed key is a candidate |
| VerifierSetup.FreezeSucceedsIff | node/src/aggregates/graph_setup.rs:60-88 | on every such run a freeze succeeds if and only if enough candidates arrived and every package has a cut |
| VerifierSetup.SelectedDataStands | node/src/aggregates/graph_setup.rs:155-173 | once the data of all sealed verifiers is complete, the selected data is the same at any later time |
| VerifierSetup.SealedLookup | node/src/aggregates/graph_setup.rs:285-299 | on every such run, looking up the i-th sealed key in the selected data returns exactly i |
| VerifierSetup.OperatorSetup.PeersDistinct | node/src/aggregates/graph_setup.rs:73-78 | the scan accepts exactly pools without a repeated peer |
| VerifierSetup.OperatorSetup.AddCandidate | node/src/aggregates/graph_jobs.rs:376-414 | an offer is accepted, repeated or refused by peer, x-only key, package, freeze and limit, in place |
| VerifierSetup.OperatorSetup.FreezeCandidates | node/src/aggregates/graph_setup.rs:60-88 | freezing in place computes the freeze, error paths included |
| VerifierSetup.OperatorSetup.RecordGcData | node/src/aggregates/graph_setup.rs:191-247 | recording in place computes the record, and never overwrites |
| VerifierSetup.OperatorSetup.SealSelection | node/src/aggregates/graph_setup.rs:126-154 | sealing in place computes the seal, and never replaces one |
| VerifierSetup.LookupVerifier | node/src/aggregates/graph_setup.rs:285-299 | the lookup tells absent, unique and duplicate keys apart |
| Timelocks.AcceptedIffWellTimed | crates/bitvm-gc/src/timelocks.rs:173-274 | a configuration is accepted if and only if its values are 16-bit heights of at least the reaction time and its deadlines lie the demanded windows apart |
| Timelocks.AcceptedIffInTime | crates/bitvm-gc/src/timelocks.rs:90-108 | on every network, Regtest included, a configuration in range is accepted if and only if everybody who needs fewer blocks than their window confirms before the next deadline |
| Timelocks.DeadlinesOrdered | crates/bitvm-gc/src/timelocks.rs:195-238 | outside Regtest challenge, ack, commit and connector-f deadlines are ordered with the whole budget between them |
| Timelocks.RegtestForcesTwoGaps | crates/bitvm-gc/src/timelocks.rs:252-267 | on Regtest acceptance is exactly in-range values, the fixed connector-z, and the two action-window gaps |
| Timelocks.RegtestAcceptsDisorder | crates/bitvm-gc/src/timelocks.rs:252-267 | Regtest accepts deadlines out of order |
| Timelocks.DefaultsAccepted | crates/bitvm-gc/src/timelocks.rs:10-61 | every packaged configuration is accepted on its network |
| Timelocks.AbandonBufferSuffices | crates/bitvm-gc/src/timelocks.rs:150-171 | the abandon buffer covers the confirmed-action window and is never zero |
| CanonicalJson.SortingOnlyReorders | circuits/proof-builder/src/api_auth.rs:161-176 | sorting keeps every key, value and array order and changes only the order of keys |
| CanonicalJson.CanonicalIff | circuits/proof-builder/src/api_auth.rs:153-176 | two bodies have the same canonical form if and only if they differ only by object key order at any depth |
| CanonicalJson.SortingIsIdempotent | circuits/proof-builder/src/api_auth.rs:161-176 | sorting a canonical body changes nothing |
| CanonicalJson.SortValue | circuits/proof-builder/src/api_auth.rs:161-176 | taking entries out, ordering them and sorting each value computes the canonical form |
| JsonText.WriteUnique | circuits/proof-builder/src/api_auth.rs:153-159 | a value can be read off its compact JSON text, whatever follows it |
| JsonText.SameTextIff | circuits/proof-builder/src/api_auth.rs:153-176 | the text that is hashed is the same if and only if two bodies differ only by object key order at any depth |
| Framing.FramingRoundTrip | circuits/proof-builder/src/api_auth.rs:178-182 | framed fields can be read back whatever they hold |
| Framing.FramingInjective | circuits/proof-builder/src/api_auth.rs:134-151 | two field lists feed the same bytes only if they are the same list |
| Framing.Hasher.HashField | circuits/proof-builder/src/api_auth.rs:178-182 | one field feeds its eight-byte big-endian length and its bytes |
| Framing.Hasher.HashFields | node/src/aggregates/common.rs:65-88 | the field loop feeds exactly the framed list |
| Framing.DeliveryPreimageInjective | node/src/aggregates/common.rs:63-75 | what a delivery id hashes determines sender, recipient and payload hash |
| Framing.JobIdentityInjective | crates/engine/src/effects.rs:29-43 | a job without ':' in its four names shares its identity with no job whose parameter hash has the same length |
| Framing.JobIdentityAmbiguous | crates/engine/src/effects.rs:29-43 | a ':' in any of the four names gives another job the same identity |
| Framing.IdentityIsOwnIff | crates/engine/src/effects.rs:29-43 | with hashes of one length an identity belongs to one job if and only if none of its four names contains ':' |
| Framing.ResultKeyInjective | crates/engine/src/event.rs:157-160 | the key of a job result determines the job and the generation |
| Bech32.StepLinear | localnet/tools/keyderive.py:138-146 | one polymod step is linear over GF(2) |
| Bech32.PolymodLinear | localnet/tools/keyderive.py:138-146 | polymod is linear over GF(2) in the start value and every symbol |
| Bech32.ChecksumVerifies | localnet/tools/keyderive.py:167-172 | the polymod over any values and their checksum is one |
| Bech32.ComputePolymod | localnet/tools/keyderive.py:138-146 | the accumulator loops compute the polymod |
| Bech32.EncodedVerifies | localnet/tools/keyderive.py:149-172 | the string for any prefix and any 5-bit data verifies and reads back to both |
| BitGroups.ConvertRoundTrip | localnet/tools/keyderive.py:153-164 | padded regrouping into narrower symbols is undone by regrouping back |
| BitGroups.ConvertBits | localnet/tools/keyderive.py:153-164 | the accumulator loop computes the regrouping, padding included |
| BitGroups.SegwitRoundTrip | localnet/tools/keyderive.py:167-172 | a segwit address verifies and carries exactly its prefix, version and program |
| Base58.TranscodeRoundTrip | localnet/tools/keyderive.py:191-205 | rewriting digits in another base and back restores them, leading zeros included |
| Base58.DecodeEncode | localnet/tools/keyderive.py:191-205 | decoding undoes encoding for every byte string |
| Base58.EncodeDecode | localnet/tools/keyderive.py:191-205 | encoding undoes decoding, and decoding succeeds exactly on texts over the alphabet |
| Base58.B58Encode | localnet/tools/keyderive.py:191-197 | the division loop computes the encoding |
| Base58.B58Decode | localnet/tools/keyderive.py:200-205 | the multiplication loop computes the decoding or reports a foreign character |

## Left out

- EngineWorker.DrainShard: takes a finite script of clock readings for the cancellation token, because the source loop may run for ever.
- EngineWorker.ProcessEvent: the choice of the retry time (backoff, or one second after lock contention) is a parameter of the step.
- EngineExecutor.RecordUntilSeen: the pauses between tries and the renewal task running beside the loop are left to the machine's interleaving.
- EnginePublisher.DrainOutbox: states termination for a positive backoff only, because with a zero delay the source loop does not end.
- EngineReplay.StoredIsReplay: the inbox and the poison table are inputs of the replay, and clocks, lease times and counters of the outbox and the jobs are not replayed.
- GraphParks.ParkedBuildsWaitOnOpenSlots: names the next slot for runs in which no new definition skips a slot; GraphWaits.ParkedEventsWaitForMissing needs no such condition.
- GraphWaits.ParkedEventsWaitForMissing: peg-out events, which wait for the chain, are not covered.
- GraphHandler.ApplyContext.Pegout: what a peg-out event decides is a parameter of the role; its code only carries that out.
- JsonText.SameTextIff: speaks about text; its UTF-8 encoding is not modelled.
- Peg-out applies, the Instance aggregate, job bodies and admission: arbitrary steps limited to the documented effects.
- A signing authorization made inside a transaction that is rolled back later: each statement commits on its own here.
- Pool semaphores and thread spawning of the executor: claims are limited by a parameter.
- Waiting-list and poison inspection, counters, metrics, logging and health: they change no protocol state.
- Cryptographic primitives: hashes are represented by the bytes fed to them.
- libp2p, HTTP and RPC services, file stores, configuration parsing, command line tools and signal handling.
- Elliptic-curve arithmetic and Keccak of the key derivation tool.
