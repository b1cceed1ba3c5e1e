/** The job executor (crates/engine/src/jobs.rs) and the claiming statements it uses
    (crates/store/src/engine/mod.rs), statement by statement. */
module EngineExecutor {
  import opened Common
  import opened EngineTypes
  import opened EngineTables
  import opened EngineTransactions
  import opened EngineJobRuns
  import opened EngineLeases
  import opened EngineWorker

  // ------------------------------------------------- ORDER BY next_at, created_at LIMIT

  predicate Before(a: (int, int), b: (int, int)) { a.0 < b.0 || (a.0 == b.0 && a.1 < b.1) }

  /** `ids` is what ORDER BY and LIMIT leave of the rows `due`. */
  ghost predicate FirstOf(due: map<string, (int, int)>, limit: int, ids: seq<string>) {
    && NoDuplicates(ids) && (forall i | 0 <= i < |ids| :: ids[i] in due)
    && (forall i, k | 0 <= i < k < |ids| :: !Before(due[ids[k]], due[ids[i]]))
    && (forall id, i | id in due && id !in ids && 0 <= i < |ids| :: !Before(due[id], due[ids[i]]))
    && (limit >= 0 ==> |ids| <= limit)
    && (|ids| == limit || forall id | id in due :: id in ids)
  }

  method Earliest(due: map<string, (int, int)>, from: set<string>) returns (first: string)
    requires from != {} && from <= due.Keys
    ensures first in from && forall id | id in from :: !Before(due[id], due[first])
  {
    first :| first in from;
    var left := from - {first};
    while left != {}
      invariant left <= from && first in from
      invariant forall id | id in from && id !in left :: !Before(due[id], due[first])
    {
      var id :| id in left;
      left := left - {id};
      if Before(due[id], due[first]) { first := id; }
    }
  }

  method SelectFirst(due: map<string, (int, int)>, limit: int) returns (ids: seq<string>)
    ensures FirstOf(due, limit, ids)
  {
    ids := [];
    var left := due.Keys;
    while left != {} && |ids| != limit
      invariant limit >= 0 ==> |ids| <= limit
      invariant left <= due.Keys && NoDuplicates(ids)
      invariant forall i | 0 <= i < |ids| :: ids[i] in due && ids[i] !in left
      invariant forall id | id in due :: id in left || id in ids
      invariant forall i, k | 0 <= i < k < |ids| :: !Before(due[ids[k]], due[ids[i]])
      invariant forall id, i | id in left && 0 <= i < |ids| :: !Before(due[id], due[ids[i]])
      decreases |left|
    {
      var first := Earliest(due, left);
      left := left - {first};
      ids := ids + [first];
    }
  }

  // ------------------------------------------------------------------ claims

  predicate DueJob(db: Db, id: string, pool: Pool, now: int) {
    id in db.jobs && db.jobs[id].pool == pool && Claimable(db.jobs, id, now)
    && !Blocked(db, db.jobs[id].aggregate, db.jobs[id].action, now)
  }

  function DueJobs(db: Db, pool: Pool, now: int): map<string, (int, int)> {
    map id | id in db.jobs && DueJob(db, id, pool, now) :: (db.jobs[id].nextAt, db.jobs[id].createdAt)
  }

  /** The candidates claimed in turn; each one is checked again when its turn comes. */
  function ClaimAll(jobs: map<string, JobRow>, ids: seq<string>, leaseUntil: int, now: int): map<string, JobRow> {
    if ids == [] then jobs
    else
      var before, id := ClaimAll(jobs, ids[..|ids| - 1], leaseUntil, now), ids[|ids| - 1];
      if Claimable(before, id, now) then before[id := ClaimedRow(before[id], leaseUntil, now)] else before
  }

  /** The rows those claims hand to their holders. */
  function Claims(jobs: map<string, JobRow>, ids: seq<string>, leaseUntil: int, now: int): seq<(string, JobRow)> {
    if ids == [] then []
    else
      var before, id := ClaimAll(jobs, ids[..|ids| - 1], leaseUntil, now), ids[|ids| - 1];
      Claims(jobs, ids[..|ids| - 1], leaseUntil, now)
      + if Claimable(before, id, now) then [(id, ClaimedRow(before[id], leaseUntil, now))] else []
  }

  /** A candidate is claimed, or another job of its aggregate runs under a live lease. */
  predicate ClaimedOrHeld(before: map<string, JobRow>, after: map<string, JobRow>, id: string, leaseUntil: int,
                          now: int) {
    && id in before && id in after
    && (|| after[id] == ClaimedRow(before[id], leaseUntil, now)
        || (after[id] == before[id] && LiveSibling(after, id, before[id].aggregate, now)))
  }

  lemma OtherClaimKeeps(jobs: map<string, JobRow>, mid: map<string, JobRow>, id: string, x: string, leaseUntil: int,
                        now: int)
    requires ClaimedOrHeld(jobs, mid, x, leaseUntil, now) && x != id && id in mid && leaseUntil > now
    ensures ClaimedOrHeld(jobs, mid[id := ClaimedRow(mid[id], leaseUntil, now)], x, leaseUntil, now)
  {
    var after := mid[id := ClaimedRow(mid[id], leaseUntil, now)];
    if mid[x] != ClaimedRow(jobs[x], leaseUntil, now) {
      var r :| r in mid && r != x && mid[r].aggregate == jobs[x].aggregate && mid[r].state.Running?
          && mid[r].leaseUntil > now;
      assert after[r].aggregate == jobs[x].aggregate && after[r].state.Running? && after[r].leaseUntil > now;
    }
  }

  ghost predicate ClaimedBatch(jobs: map<string, JobRow>, after: map<string, JobRow>, ids: seq<string>, leaseUntil: int,
                               now: int)
  {
    && after.Keys == jobs.Keys && Exclusive(after, now)
    && (forall id | id in jobs && id !in ids :: after[id] == jobs[id])
    && (forall i | 0 <= i < |ids| :: ClaimedOrHeld(jobs, after, ids[i], leaseUntil, now))
  }

  lemma ClaimedBatchGrows(jobs: map<string, JobRow>, mid: map<string, JobRow>, ids: seq<string>, id: string,
                          leaseUntil: int, now: int)
    requires ClaimedBatch(jobs, mid, ids, leaseUntil, now) && id !in ids && Claimable(jobs, id, now) && leaseUntil > now
    ensures ClaimedBatch(jobs, if Claimable(mid, id, now) then mid[id := ClaimedRow(mid[id], leaseUntil, now)] else mid,
                         ids + [id], leaseUntil, now)
  {
    assert mid[id] == jobs[id];
    if Claimable(mid, id, now) {
      ClaimKeepsExclusive(mid, id, leaseUntil, now);
      forall i | 0 <= i < |ids|
        ensures ClaimedOrHeld(jobs, mid[id := ClaimedRow(mid[id], leaseUntil, now)], ids[i], leaseUntil, now)
      {
        OtherClaimKeeps(jobs, mid, id, ids[i], leaseUntil, now);
      }
    }
  }

  /** Claiming a batch: every row is claimed at most once, leases stay exclusive, and a
      candidate is passed over only for a live job of its own aggregate. */
  lemma {:induction false} ClaimAllSound(jobs: map<string, JobRow>, ids: seq<string>, leaseUntil: int, now: int)
    requires Exclusive(jobs, now) && NoDuplicates(ids) && leaseUntil > now
    requires forall i | 0 <= i < |ids| :: Claimable(jobs, ids[i], now)
    ensures ClaimedBatch(jobs, ClaimAll(jobs, ids, leaseUntil, now), ids, leaseUntil, now)
  {
    if ids != [] {
      var front, id := ids[..|ids| - 1], ids[|ids| - 1];
      ClaimAllSound(jobs, front, leaseUntil, now);
      assert id !in front;
      ClaimedBatchGrows(jobs, ClaimAll(jobs, front, leaseUntil, now), front, id, leaseUntil, now);
      assert ids == front + [id];
    }
  }

  method ClaimDueJobs<B>(db: Database<B>, pool: Pool, now: int, leaseUntil: int, limit: int)
    returns (candidates: seq<string>, claimed: seq<(string, JobRow)>)
    modifies db`tables
    ensures FirstOf(DueJobs(old(db.tables), pool, now), limit, candidates)
    ensures db.tables == old(db.tables).(jobs := ClaimAll(old(db.tables.jobs), candidates, leaseUntil, now))
    ensures claimed == Claims(old(db.tables.jobs), candidates, leaseUntil, now)
  {
    candidates := SelectFirst(DueJobs(db.tables, pool, now), limit);
    claimed := [];
    ghost var before := db.tables;
    for i := 0 to |candidates|
      invariant db.tables == before.(jobs := ClaimAll(before.jobs, candidates[..i], leaseUntil, now))
      invariant claimed == Claims(before.jobs, candidates[..i], leaseUntil, now)
    {
      var id := candidates[i];
      if Claimable(db.tables.jobs, id, now) {
        var row := ClaimedRow(db.tables.jobs[id], leaseUntil, now);
        db.tables := db.tables.(jobs := db.tables.jobs[id := row]);
        claimed := claimed + [(id, row)];
      }
      assert candidates[..i + 1][..i] == candidates[..i];
    }
    assert candidates[..|candidates|] == candidates;
  }

  // ------------------------------------------------------------------ renewal

  datatype Renewal = Renewed | Ended | Lost

  /** One tick of the renewal loop: extend the lease, or find out why it is gone. */
  method RenewOnce<B>(db: Database<B>, job: string, generation: int, leaseUntil: int, now: int) returns (r: Renewal)
    modifies db`tables
    ensures db.tables == old(db.tables).(jobs := RenewLease(old(db.tables.jobs), job, generation, leaseUntil, now))
    ensures r.Renewed? <==> Holds(old(db.tables.jobs), job, generation)
    ensures r.Ended? ==>
              job in db.tables.jobs && db.tables.jobs[job].generation == generation
              && !db.tables.jobs[job].state.Running?
    ensures r.Lost? <==> job !in db.tables.jobs || db.tables.jobs[job].generation != generation
  {
    var held := Holds(db.tables.jobs, job, generation);
    db.tables := db.tables.(jobs := RenewLease(db.tables.jobs, job, generation, leaseUntil, now));
    if held { return Renewed; }
    if job in db.tables.jobs && db.tables.jobs[job].generation == generation { return Ended; }
    r := Lost;
  }

  // --------------------------------------------------------------- completion

  lemma InsertIgnores(db: Db, jobs: map<string, JobRow>, poison: map<PoisonKey, PoisonRow>, e: NewEvent, now: int)
    ensures InsertInbox(db.(jobs := jobs, poison := poison), e, now)
            == InsertInbox(db, e, now).(jobs := jobs, poison := poison)
    ensures InsertInbox(db, e, now).jobs == db.jobs && InsertInbox(db, e, now).poison == db.poison
  {
    if e.id !in db.inbox {
    } else if db.inbox[e.id].state.Failed? {
    }
  }

  lemma FinishRowsOnly(db: Db, like: Db, job: string, row: JobRow, f: Finish, now: int, backoff: int -> int)
    requires like.jobs == db.jobs && like.poison == db.poison
    ensures var done := FinishRows(db, job, row, f, now, backoff);
            FinishRows(like, job, row, f, now, backoff) == like.(jobs := done.jobs, poison := done.poison)
  {
  }

  /** The order in which a completion writes its three tables does not matter. */
  lemma ReportLast(db: Db, job: string, row: JobRow, f: Finish, now: int, backoff: int -> int)
    ensures var outcome := FinishOutcomeOf(db.jobs, job, row.generation, f);
            ReportResult(FinishRows(db, job, row, f, now, backoff), job, row, outcome, f, now)
            == RecordFinish(db, job, row, f, now, backoff)
  {
    var outcome := FinishOutcomeOf(db.jobs, job, row.generation, f);
    var reported := Reported(outcome, f);
    var done := FinishRows(db, job, row, f, now, backoff);
    FinishRowsOnly(db, db, job, row, f, now, backoff);
    if reported.Some? {
      var e := ResultEvent(job, row, row.generation, !outcome.Finished?, reported.value);
      InsertIgnores(db, done.jobs, done.poison, e, now);
      FinishRowsOnly(db, InsertInbox(db, e, now), job, row, f, now, backoff);
    }
  }

  method WriteFinish<B>(db: Database<B>, job: string, row: JobRow, outcome: FinishOutcome, f: Finish, now: int,
                        backoff: int -> int)
    requires outcome == FinishOutcomeOf(db.tables.jobs, job, row.generation, f)
    modifies db`tables
    ensures db.tables == FinishRows(old(db.tables), job, row, f, now, backoff)
    ensures db.tables.inbox == old(db.tables.inbox)
  {
    db.tables := db.tables.(jobs := FinishJob(db.tables.jobs, job, row.generation, f, now));
    var key := PoisonKey(row.aggregate, row.action);
    if outcome.Finished? {
      if f.Poisoned? {
        db.tables := MarkPoison(db.tables, key, now, backoff);
      } else {
        db.tables := ReleasePoison(db.tables, key);
      }
    }
  }

  /** Record how a claimed job ended: the row, the poison of its action and the result
      event, in that order and in one transaction. */
  method RecordJobFinish<B>(db: Database<B>, job: string, row: JobRow, f: Finish, now: int, backoff: int -> int)
    returns (wake: bool)
    modifies db`tables
    ensures db.tables == RecordFinish(old(db.tables), job, row, f, now, backoff)
    ensures wake <==> exists id | id in db.tables.inbox :: id !in old(db.tables.inbox)
  {
    var outcome := FinishOutcomeOf(db.tables.jobs, job, row.generation, f);
    WriteFinish(db, job, row, outcome, f, now, backoff);
    wake := false;
    var reported := Reported(outcome, f);
    if reported.Some? {
      var event := ResultEvent(job, row, row.generation, !outcome.Finished?, reported.value);
      wake := event.id !in db.tables.inbox;
      db.tables := InsertInbox(db.tables, event, now);
      assert wake ==> event.id in db.tables.inbox;
    }
    ReportLast(old(db.tables), job, row, f, now, backoff);
  }

  lemma InsertOneMore(db: Db, es: seq<NewEvent>, i: nat, now: int)
    requires i < |es|
    ensures InsertInboxAll(db, es[..i + 1], now) == InsertInbox(InsertInboxAll(db, es[..i], now), es[i], now)
  {
    assert es[..i + 1][..i] == es[..i];
  }

  /** Finish the cancelled jobs that lost their holder and report each of them. */
  method FinishLapsedCancelled<B>(db: Database<B>, now: int) returns (order: seq<string>)
    modifies db`tables
    ensures SweepOrder(old(db.tables.jobs), order, now)
    ensures db.tables == Sweep(old(db.tables), order, now)
  {
    ghost var before := db.tables;
    var jobs := db.tables.jobs;
    order := LapsedJobs(jobs, now);
    db.tables := db.tables.(jobs := SweepJobs(jobs, now));
    ghost var all := SweepEvents(jobs, order);
    for i := 0 to |order|
      invariant db.tables == InsertInboxAll(before, all[..i], now).(jobs := SweepJobs(jobs, now))
    {
      var event := ResultEvent(order[i], jobs[order[i]], jobs[order[i]].generation, false, JobOutcome.Cancelled);
      ghost var mid := InsertInboxAll(before, all[..i], now);
      InsertIgnores(mid, SweepJobs(jobs, now), mid.poison, event, now);
      InsertOneMore(before, all, i, now);
      db.tables := InsertInbox(db.tables, event, now);
    }
    assert all[..|order|] == all;
  }

  method LapsedJobs(jobs: map<string, JobRow>, now: int) returns (order: seq<string>)
    ensures SweepOrder(jobs, order, now)
  {
    order := [];
    var left := jobs.Keys;
    while left != {}
      invariant left <= jobs.Keys && NoDuplicates(order)
      invariant forall i | 0 <= i < |order| ::
                  order[i] in jobs && order[i] !in left && LapsedCancelled(jobs[order[i]], now)
      invariant forall id | id in jobs && LapsedCancelled(jobs[id], now) :: id in left || id in order
    {
      var id :| id in left;
      left := left - {id};
      if LapsedCancelled(jobs[id], now) { order := order + [id]; }
    }
  }

  // ------------------------------------------------------ recording with retries

  const ATTEMPTS_AFTER_LEASE_LOSS := 2

  /** One try to record a completion, as the surroundings decide it: whether its commit
      took effect, whether the holder saw that, and whether its token was cancelled. */
  datatype Try = Try(at: int, commits: bool, seen: bool, cancelled: bool)

  function CancelledTries(tries: seq<Try>): nat {
    if tries == [] then 0 else CancelledTries(tries[..|tries| - 1]) + if tries[|tries| - 1].cancelled then 1 else 0
  }

  lemma OneMoreTry(tries: seq<Try>, i: nat)
    requires i < |tries|
    ensures tries[..i + 1] == tries[..i] + [tries[i]]
    ensures CancelledTries(tries[..i + 1]) == CancelledTries(tries[..i]) + if tries[i].cancelled then 1 else 0
  {
    assert tries[..i + 1][..i] == tries[..i];
  }

  /** One try, which may commit whatever its caller gets to see of it. */
  method TryRecord<B>(db: Database<B>, job: string, row: JobRow, f: Finish, t: Try, backoff: int -> int,
                      ghost before: Db, ghost tries: seq<Try>, ghost first: Option<nat>)
    returns (ghost next: Option<nat>)
    requires job in before.jobs && row.generation <= before.jobs[job].generation
    requires Tried(before, db.tables, job, row, f, backoff, tries, first)
    modifies db`tables
    ensures Tried(before, db.tables, job, row, f, backoff, tries + [t], next)
  {
    ghost var was := db.tables;
    if t.commits {
      var _ := RecordJobFinish(db, job, row, f, t.at, backoff);
    }
    TriedOnce(before, was, db.tables, job, row, f, backoff, tries, t, first);
    next := if t.commits && first.None? then Some(|tries|) else first;
  }

  /** Try until one commit is seen, or twice after the lease was lost. However the tries
      go, the completion took effect at most once. */
  method RecordUntilSeen<B>(db: Database<B>, job: string, row: JobRow, f: Finish, tries: seq<Try>, backoff: int -> int)
    returns (made: nat, recorded: bool, ghost first: Option<nat>)
    requires job in db.tables.jobs && row.generation <= db.tables.jobs[job].generation
    requires forall i | 0 <= i < |tries| :: tries[i].seen ==> tries[i].commits
    modifies db`tables
    ensures made <= |tries| && CancelledTries(tries[..made]) <= ATTEMPTS_AFTER_LEASE_LOSS + (if recorded then 1 else 0)
    ensures recorded ==> made > 0 && tries[made - 1].seen
    ensures !recorded && made < |tries| ==> CancelledTries(tries[..made]) == ATTEMPTS_AFTER_LEASE_LOSS
    ensures Tried(old(db.tables), db.tables, job, row, f, backoff, tries[..made], first)
  {
    made, recorded, first := 0, false, None;
    var afterLoss := 0;
    ghost var before := db.tables;
    while made < |tries| && afterLoss < ATTEMPTS_AFTER_LEASE_LOSS
      invariant made <= |tries| && afterLoss == CancelledTries(tries[..made]) <= ATTEMPTS_AFTER_LEASE_LOSS
      invariant Tried(before, db.tables, job, row, f, backoff, tries[..made], first)
    {
      var t := tries[made];
      first := TryRecord(db, job, row, f, t, backoff, before, tries[..made], first);
      OneMoreTry(tries, made);
      made := made + 1;
      if t.seen { return made, true, first; }
      if t.cancelled { afterLoss := afterLoss + 1; }
    }
  }

  /** Where the tables stand after `tries`, the first committed one being `first`. */
  ghost predicate Tried(before: Db, db: Db, job: string, row: JobRow, f: Finish, backoff: int -> int, tries: seq<Try>,
                        first: Option<nat>)
  {
    && (first.None? ==> db == before && forall i | 0 <= i < |tries| :: !tries[i].commits)
    && (first.Some? ==>
          && first.value < |tries| && tries[first.value].commits
          && (forall i | 0 <= i < first.value :: !tries[i].commits)
          && RepeatedOnly(RecordFinish(before, job, row, f, tries[first.value].at, backoff), db,
                          ResultOf(job, row.generation)))
  }

  lemma TriedOnce(before: Db, was: Db, db: Db, job: string, row: JobRow, f: Finish, backoff: int -> int,
                  tries: seq<Try>, t: Try, first: Option<nat>)
    requires job in before.jobs && row.generation <= before.jobs[job].generation
    requires Tried(before, was, job, row, f, backoff, tries, first)
    requires db == if t.commits then RecordFinish(was, job, row, f, t.at, backoff) else was
    ensures var next := if t.commits && first.None? then Some(|tries|) else first;
            Tried(before, db, job, row, f, backoff, tries + [t], next)
  {
    var all := tries + [t];
    assert all[|tries|] == t && forall i | 0 <= i < |tries| :: all[i] == tries[i];
    if t.commits && first.Some? {
      var one := RecordFinish(before, job, row, f, tries[first.value].at, backoff);
      FirstRecord(before, job, row, f, tries[first.value].at, backoff);
      RepeatedRecord(was, job, row, f, t.at, backoff);
      RepeatedTwice(one, was, db, ResultOf(job, row.generation));
    }
  }

  lemma RepeatedTwice(a: Db, b: Db, c: Db, id: EventId)
    requires RepeatedOnly(a, b, id) && RepeatedOnly(b, c, id)
    ensures RepeatedOnly(a, c, id)
  {
  }
}
