/** Leases: at most one job of an aggregate runs under a live lease, and the limits of the
    fence around purged, swept and late holders. */
module EngineLeases {
  import opened Common
  import opened EngineTypes
  import opened EngineTables
  import opened EngineTransactions
  import opened EngineMachine
  import opened EngineOwnership
  import opened EngineFencing
  import opened EngineResults
  import opened EngineJobRuns

  predicate Live(row: JobRow, now: int) { row.state.Running? && row.leaseUntil > now }

  /** No two jobs of one aggregate run under live leases. */
  ghost predicate Exclusive(jobs: map<string, JobRow>, now: int) {
    forall a, b | a in jobs && b in jobs && a != b && Live(jobs[a], now) && Live(jobs[b], now) ::
      jobs[a].aggregate != jobs[b].aggregate
  }

  /** No lease starts or is prolonged. */
  ghost predicate NoNewLease(before: map<string, JobRow>, after: map<string, JobRow>) {
    forall j | j in after && after[j].state.Running? ::
      && j in before && before[j].state.Running? && after[j].leaseUntil <= before[j].leaseUntil
      && after[j].aggregate == before[j].aggregate
  }

  lemma NoNewLeaseKeepsExclusive(before: map<string, JobRow>, after: map<string, JobRow>, t: int, u: int)
    requires Exclusive(before, t) && NoNewLease(before, after) && t <= u
    ensures Exclusive(after, u)
  {
  }

  lemma ClaimKeepsExclusive(jobs: map<string, JobRow>, id: string, leaseUntil: int, now: int)
    requires Exclusive(jobs, now) && Claimable(jobs, id, now)
    ensures Exclusive(jobs[id := ClaimedRow(jobs[id], leaseUntil, now)], now)
  {
  }

  /** A renewal keeps leases exclusive exactly when the holder renews in time, or nobody
      else of its aggregate was claimed meanwhile. */
  lemma RenewalExclusiveIff(jobs: map<string, JobRow>, id: string, generation: int, leaseUntil: int, now: int)
    requires Exclusive(jobs, now) && Holds(jobs, id, generation) && leaseUntil > now
    ensures Exclusive(RenewLease(jobs, id, generation, leaseUntil, now), now)
            <==> (jobs[id].leaseUntil > now || !LiveSibling(jobs, id, jobs[id].aggregate, now))
  {
    var after := RenewLease(jobs, id, generation, leaseUntil, now);
    if r :|
        r in jobs && r != id && jobs[r].aggregate == jobs[id].aggregate && jobs[r].state.Running?
        && jobs[r].leaseUntil > now {
      assert Live(after[id], now) && Live(after[r], now);
    }
  }

  /** Two due jobs of one aggregate, claimed one after the other's lease lapsed: when the
      first holder renews late, both leases are live. */
  lemma LateRenewalOverlaps(jobs: map<string, JobRow>, a: string, b: string, t: int, u: int, lease: int)
    requires a in jobs && b in jobs && a != b && jobs[a].aggregate == jobs[b].aggregate
    requires forall j | j in jobs :: jobs[j].state.Pending? && jobs[j].nextAt <= t
    requires 0 < lease && t + lease <= u
    ensures Claimable(jobs, a, t)
    ensures var jobs1 := jobs[a := ClaimedRow(jobs[a], t + lease, t)];
            && Claimable(jobs1, b, u)
            && var jobs2 := jobs1[b := ClaimedRow(jobs1[b], u + lease, u)];
            && Exclusive(jobs2, u)
            && !Exclusive(RenewLease(jobs2, a, jobs[a].generation + 1, u + lease, u), u)
  {
    var jobs1 := jobs[a := ClaimedRow(jobs[a], t + lease, t)];
    var jobs2 := jobs1[b := ClaimedRow(jobs1[b], u + lease, u)];
    var jobs3 := RenewLease(jobs2, a, jobs[a].generation + 1, u + lease, u);
    assert Live(jobs3[a], u) && Live(jobs3[b], u);
  }

  // --------------------------------------------------------------- over whole runs

  lemma {:induction false} InsertJobsNoLease(jobs: map<string, JobRow>, a: AggregateRef, js: seq<JobSpec>, now: int)
    ensures NoNewLease(jobs, InsertJobs(jobs, a, js, now))
  {
    if js != [] { InsertJobsNoLease(jobs, a, js[..|js| - 1], now); }
  }

  lemma CommitJobsNoLease(jobs: map<string, JobRow>, a: AggregateRef, cleared: seq<string>, js: seq<JobSpec>,
                          cancels: seq<JobCancel>, now: int)
    ensures NoNewLease(jobs, CommitJobs(jobs, a, cleared, js, cancels, now))
  {
    var mid := ClearResults(jobs, cleared, now);
    InsertJobsNoLease(mid, a, js, now);
    var inserted := InsertJobs(mid, a, js, now);
    assert NoNewLease(inserted, CancelJobs(inserted, cancels, a, now));
  }

  /** A renewal comes in time: its lease, if still its own, has not lapsed. */
  predicate RenewsInTime(jobs: map<string, JobRow>, holders: map<nat, Holder>, x: ExecStep) {
    x.Renew? && x.holder in holders && Holds(jobs, holders[x.holder].job, holders[x.holder].row.generation) ==>
      jobs[holders[x.holder].job].leaseUntil > x.at
  }

  function StepTime(x: ExecStep, otherwise: int): int {
    match x
    case Claim(_, _, _, at) => at
    case Renew(_, _, at) => at
    case RecordCompletion(_, at, _) => at
    case SweepCancelled(_, at) => at
    case _ => otherwise
  }

  lemma RenewInTimeExclusive(jobs: map<string, JobRow>, id: string, generation: int, leaseUntil: int, now: int)
    requires Exclusive(jobs, now) && (Holds(jobs, id, generation) ==> jobs[id].leaseUntil > now)
    ensures Exclusive(RenewLease(jobs, id, generation, leaseUntil, now), now)
  {
  }

  lemma ExecExclusive(db: Db, holders: map<nat, Holder>, x: ExecStep, backoff: int -> int, t: int, u: int)
    requires ExecEnabled(db, holders, x) && Exclusive(db.jobs, t) && t <= u && StepTime(x, u) == u
    requires RenewsInTime(db.jobs, holders, x)
    ensures Exclusive(ExecDb(db, holders, x, backoff).jobs, u)
  {
    NoNewLeaseKeepsExclusive(db.jobs, db.jobs, t, u);
    match x
    case Claim(_, job, leaseUntil, at) => ClaimKeepsExclusive(db.jobs, job, leaseUntil, at);
    case Renew(h, leaseUntil, at) =>
      RenewInTimeExclusive(db.jobs, holders[h].job, holders[h].row.generation, leaseUntil, at);
    case RecordCompletion(h, at, _) =>
      var f := holders[h].finish.value;
      RecordJobs(db, holders[h].job, holders[h].row, f, at, backoff);
      NoNewLeaseKeepsExclusive(db.jobs, FinishJob(db.jobs, holders[h].job, holders[h].row.generation, f, at), u, u);
    case SweepCancelled(order, at) =>
      NoNewLeaseKeepsExclusive(db.jobs, SweepJobs(db.jobs, at), u, u);
    case _ =>
  }

  lemma WorkNoLease<B>(c: Config<B>, s: System<B>, w: nat, k: WorkStep)
    requires WorkEnabled(c, s, w, k)
    ensures NoNewLease(s.db.jobs, WorkNext(c, s, w, k).db.jobs)
  {
    if k.Apply? {
      var input := InputOf(s, w, k.at, k.oracle);
      var reply := c.handler(input);
      if reply.Decided? {
        CommitReplyJobs(s.db, input, reply, k.recheckAt);
        CommitJobsNoLease(s.db.jobs, input.row.aggregate, reply.cleared, reply.effects.jobs, reply.effects.cancels,
                          k.at);
      }
    }
  }

  lemma RuntimeNoLease(db: Db, r: RuntimeStep)
    ensures NoNewLease(db.jobs, RuntimeDb(db, r).jobs)
  {
  }

  lemma StepExclusive<B>(c: Config<B>, s: System<B>, step: Step<B>, t: int, u: int)
    requires Enabled(c, s, step) && Exclusive(s.db.jobs, t) && t <= u
    requires step.Exec? ==> StepTime(step.exec, u) == u && RenewsInTime(s.db.jobs, s.holders, step.exec)
    ensures Exclusive(Next(c, s, step).db.jobs, u)
  {
    match step
    case Exec(x) => ExecExclusive(s.db, s.holders, x, c.poisonBackoff, t, u);
    case Work(w, k) =>
      WorkNoLease(c, s, w, k);
      NoNewLeaseKeepsExclusive(s.db.jobs, Next(c, s, step).db.jobs, t, u);
    case Submit(submit) =>
      SubmitPassive(s.db, s.submitters, submit);
      NoNewLeaseKeepsExclusive(s.db.jobs, s.db.jobs, t, u);
    case Runtime(r) =>
      RuntimeNoLease(s.db, r);
      NoNewLeaseKeepsExclusive(s.db.jobs, Next(c, s, step).db.jobs, t, u);
    case _ => NoNewLeaseKeepsExclusive(s.db.jobs, s.db.jobs, t, u);
  }

  /** With a clock that never runs backwards and holders that renew in time, no aggregate
      ever has two jobs under live leases. */
  lemma {:induction false} OneLiveJobPerAggregate<B(!new)>(c: Config<B>, run: seq<System<B>>, steps: seq<Step<B>>,
                                                           clock: seq<int>, business: B, shards: nat, k: nat)
    requires IsRun(c, run, steps) && run[0] == Init(business, shards) && |clock| == |run| && k < |run|
    requires forall i | 0 <= i < |steps| :: clock[i] <= clock[i + 1]
    requires forall i | 0 <= i < |steps| && steps[i].Exec? ::
               StepTime(steps[i].exec, clock[i + 1]) == clock[i + 1]
                 && RenewsInTime(run[i].db.jobs, run[i].holders, steps[i].exec)
    ensures Exclusive(run[k].db.jobs, clock[k])
  {
    if k > 0 {
      OneLiveJobPerAggregate(c, run, steps, clock, business, shards, k - 1);
      StepExclusive(c, run[k - 1], steps[k - 1], clock[k - 1], clock[k]);
    }
  }

  // ------------------------------------------------------------- limits of the fence

  /** The outcome of a holder that lost its lease enters the inbox exactly when it is
      terminal and no result of its generation is there yet. */
  lemma LateOutcomeEntersIff(db: Db, j: string, row: JobRow, f: Finish, now: int, backoff: int -> int)
    requires Spent(db.jobs, j, row.generation)
    ensures var after := RecordFinish(db, j, row, f, now, backoff).inbox;
            (exists id | id in after :: id !in db.inbox)
            <==> (TerminalOutcome(f).Some? && ResultOf(j, row.generation) !in db.inbox)
    ensures var after := RecordFinish(db, j, row, f, now, backoff).inbox;
            forall id | id in after && id !in db.inbox ::
              && id == ResultOf(j, row.generation)
              && after[id].payload == Some(Result(JobResult(j, row.phase, row.action, row.generation, true,
                                                            TerminalOutcome(f).value)))
  {
    RecordInbox(db, j, row, f, now, backoff);
    var after := RecordFinish(db, j, row, f, now, backoff).inbox;
    if TerminalOutcome(f).Some? && ResultOf(j, row.generation) !in db.inbox {
      assert ResultOf(j, row.generation) in after;
    }
  }

  /** A holder whose job the cancel sweep ended reports nothing: the sweep's own result
      already has the key of its generation. */
  lemma SweptOutcomeIsDropped(db: Db, order: seq<string>, at: int, j: string, row: JobRow, f: Finish, now: int,
                              backoff: int -> int)
    requires SweepOrder(db.jobs, order, at) && j in order && row.generation == db.jobs[j].generation
    ensures var swept := Sweep(db, order, at);
            RepeatedOnly(swept, RecordFinish(swept, j, row, f, now, backoff), ResultOf(j, row.generation))
  {
    var swept := Sweep(db, order, at);
    if SweepEvent(db, j).id !in db.inbox {
      SweepStores(db, order, at, j);
    } else {
      InsertAllOnlyInserts(db, SweepEvents(db.jobs, order), at);
    }
    assert swept.jobs == SweepJobs(db.jobs, at);
    RepeatedRecord(swept, j, row, f, now, backoff);
  }

  /** A purged job id that is enqueued again starts over: a holder of generation 1 of the
      purged job passes the fence of the new one. The fence holds per retained row. */
  lemma PurgeRestartsGenerations(jobs: map<string, JobRow>, a: AggregateRef, spec: JobSpec, before: int, now: int,
                                 leaseUntil: int)
    requires spec.id in jobs && jobs[spec.id].state.Terminal() && jobs[spec.id].updatedAt < before
    requires spec.runAfter.None? && forall j | j in jobs && j != spec.id :: jobs[j].aggregate != a
    ensures var again := InsertJob(PurgeJobs(jobs, before), a, spec, now);
            && Claimable(again, spec.id, now)
            && Holds(again[spec.id := ClaimedRow(again[spec.id], leaseUntil, now)], spec.id, 1)
    ensures InsertJob(jobs, a, spec, now) == jobs
  {
  }
}
