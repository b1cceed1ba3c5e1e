/** What every step of the engine does to an inbox row, and the ownership rule that
    follows: the row a worker is about to write is still pending and still the event
    the worker read, however other shards, producers, timers and purges interleave. */
module EngineOwnership {
  import opened Common
  import opened EngineTypes
  import opened EngineTables
  import opened EngineTransactions
  import opened EngineMachine

  predicate SameEvent(a: InboxRow, b: InboxRow) {
    && a.seqNo == b.seqNo && a.aggregate == b.aggregate && a.kind == b.kind && a.source == b.source
    && a.ack == b.ack && a.createdAt == b.createdAt
  }

  /** What a step may do to a row that is not the one its worker writes: bring a pending
      row forward in time, or re-arm a failed one. */
  predicate Passive(before: InboxRow, after: InboxRow) {
    || (after == before.(nextAt := after.nextAt, updatedAt := after.updatedAt) && after.nextAt <= before.nextAt)
    || (before.state.Failed? && after.state.Pending? && after.waitingRef.None?
        && SameEvent(before, after) && after.payload == before.payload)
  }

  predicate FreshRow(row: InboxRow) { row.state.Pending? && row.waitingRef.None? && row.payload.Some? }

  ghost predicate PassiveBut(before: map<EventId, InboxRow>, after: map<EventId, InboxRow>, acting: Option<EventId>) {
    && (forall id | id in before && id in after && acting != Some(id) :: Passive(before[id], after[id]))
    && (forall id | id in after && id !in before && acting != Some(id) :: FreshRow(after[id]))
    && (forall id | id in before && id !in after :: !before[id].state.Pending?)
  }

  /** The inbox row a step writes on behalf of its worker. */
  function Acting<B>(s: System<B>, step: Step<B>): Option<EventId> {
    if step.Work? && WorkerOf(s, step.worker).Active() then Some(WorkerOf(s, step.worker).id) else None
  }

  /** Recording events only adds fresh rows and re-arms failed ones. */
  ghost predicate OnlyInserts(before: map<EventId, InboxRow>, after: map<EventId, InboxRow>, es: seq<NewEvent>) {
    && (forall id | id in before ::
          id in after && (after[id] == before[id] || (before[id].state.Failed? && Passive(before[id], after[id]))))
    && (forall id | id in after && id !in before :: FreshRow(after[id]) && exists e | e in es :: e.id == id)
  }

  lemma {:induction false} InsertAllOnlyInserts(db: Db, es: seq<NewEvent>, now: int)
    ensures OnlyInserts(db.inbox, InsertInboxAll(db, es, now).inbox, es)
    ensures InsertInboxAll(db, es, now).jobs == db.jobs
  {
    if es != [] {
      var rest, last := es[..|es| - 1], es[|es| - 1];
      InsertAllOnlyInserts(db, rest, now);
      var mid := InsertInboxAll(db, rest, now);
      var after := InsertInbox(mid, last, now);
      forall id | id in after.inbox && id !in db.inbox
        ensures FreshRow(after.inbox[id]) && exists e | e in es :: e.id == id
      {
        if id in mid.inbox {
          var e :| e in rest && e.id == id;
          assert e in es;
        } else {
          assert last in es;
        }
      }
    }
  }

  lemma WakePassive(before: map<EventId, InboxRow>, mid: map<EventId, InboxRow>, es: seq<NewEvent>,
                    refs: seq<string>, now: int)
    requires OnlyInserts(before, mid, es)
    ensures PassiveBut(before, Wake(mid, refs, now), None)
  {
  }

  /** The worker's own statement rewrites one row. */
  lemma OwnWritePassive(before: map<EventId, InboxRow>, after: map<EventId, InboxRow>, id: EventId)
    requires id in before ==> id in after
    requires forall e | e != id :: (e in before <==> e in after) && (e in before ==> before[e] == after[e])
    ensures PassiveBut(before, after, Some(id)) && before.Keys <= after.Keys
  {
  }

  lemma MarkPassive(before: map<EventId, InboxRow>, mid: map<EventId, InboxRow>, id: EventId, ref: string,
                    nextAt: int, now: int)
    requires PassiveBut(before, mid, None)
    ensures PassiveBut(before, MarkApplied(mid, id, now), Some(id))
    ensures PassiveBut(before, MarkWaiting(mid, id, ref, nextAt, now), Some(id))
  {
  }

  /** The inbox of a commit, in the order the transaction writes it. */
  function CommitInbox<B>(db: Db, input: ApplyInput<B>, reply: Reply<B>, recheckAt: int): map<EventId, InboxRow>
    requires reply.Decided?
    ensures CommitInbox(db, input, reply, recheckAt) == CommitReply(db, input, reply, recheckAt).inbox
  {
    var inserted := InsertInboxAll(db, reply.recorded, input.now);
    assert HandlerWrites(db, reply.recorded, reply.cleared, input.now).inbox == inserted.inbox;
    var current := FindAggregate(HandlerWrites(db, reply.recorded, reply.cleared, input.now), input.row.aggregate);
    var woken := Wake(inserted.inbox, CommitRefs(input.row.aggregate, current, reply.effects, input.id), input.now);
    match reply.verdict
    case Accept => MarkApplied(woken, input.id, input.now)
    case Park(ref) => MarkWaiting(woken, input.id, ref, recheckAt, input.now)
  }

  /** A commit is passive on every row but the event it marks. */
  lemma CommitPassive<B>(db: Db, input: ApplyInput<B>, reply: Reply<B>, recheckAt: int)
    requires reply.Decided?
    ensures PassiveBut(db.inbox, CommitReply(db, input, reply, recheckAt).inbox, Some(input.id))
    ensures db.inbox.Keys <= CommitReply(db, input, reply, recheckAt).inbox.Keys
  {
    var now := input.now;
    InsertAllOnlyInserts(db, reply.recorded, now);
    var inserted := InsertInboxAll(db, reply.recorded, now).inbox;
    var current := FindAggregate(HandlerWrites(db, reply.recorded, reply.cleared, now), input.row.aggregate);
    var refs := CommitRefs(input.row.aggregate, current, reply.effects, input.id);
    WakePassive(db.inbox, inserted, reply.recorded, refs, now);
    MarkPassive(db.inbox, Wake(inserted, refs, now), input.id, if reply.verdict.Park? then reply.verdict.ref else "",
                recheckAt, now);
    assert CommitInbox(db, input, reply, recheckAt) == CommitReply(db, input, reply, recheckAt).inbox;
  }

  lemma InsertPassive(db: Db, e: NewEvent, now: int)
    ensures PassiveBut(db.inbox, InsertInbox(db, e, now).inbox, None)
    ensures db.inbox.Keys <= InsertInbox(db, e, now).inbox.Keys
  {
    if e.id !in db.inbox {
    } else if db.inbox[e.id].state.Failed? {
    } else {
    }
  }

  /** A statement of a submission touches the inbox only, and passively. */
  lemma SubmitPassive(db: Db, submitters: map<nat, Submitter>, u: SubmitStep)
    requires SubmitEnabled(submitters, u)
    ensures var after := SubmitDb(db, submitters, u);
            && PassiveBut(db.inbox, after.inbox, None) && db.inbox.Keys <= after.inbox.Keys
            && after.jobs == db.jobs && after.outbox == db.outbox && after.aggregates == db.aggregates
            && after.poison == db.poison
  {
    match u
    case InsertEvent(_, e, at) => if e.id !in db.inbox { InsertPassive(db, e, at); } else { SamePassive(db.inbox); }
    case RearmKnown(k, at) => RearmPassive(db, submitters[k].event.id, at);
    case _ => SamePassive(db.inbox);
  }

  lemma SamePassive(inbox: map<EventId, InboxRow>)
    ensures PassiveBut(inbox, inbox, None)
  {
  }

  lemma RearmPassive(db: Db, id: EventId, at: int)
    ensures var after := RearmFailed(db, id, at);
            && PassiveBut(db.inbox, after.inbox, None) && after.inbox.Keys == db.inbox.Keys
            && after == db.(inbox := after.inbox)
  {
  }

  lemma RuntimePassive(db: Db, r: RuntimeStep)
    ensures PassiveBut(db.inbox, RuntimeDb(db, r).inbox, None)
  {
  }

  lemma RecordPassive(db: Db, job: string, row: JobRow, f: Finish, now: int, backoff: int -> int)
    ensures PassiveBut(db.inbox, RecordFinish(db, job, row, f, now, backoff).inbox, None)
    ensures db.inbox.Keys <= RecordFinish(db, job, row, f, now, backoff).inbox.Keys
  {
    var outcome := FinishOutcomeOf(db.jobs, job, row.generation, f);
    var mid := ReportResult(db, job, row, outcome, f, now);
    assert FinishRows(mid, job, row, f, now, backoff).inbox == mid.inbox;
    var reported := Reported(outcome, f);
    if reported.Some? {
      InsertPassive(db, ResultEvent(job, row, row.generation, !outcome.Finished?, reported.value), now);
    }
  }

  lemma ExecPassive(db: Db, holders: map<nat, Holder>, x: ExecStep, backoff: int -> int)
    requires ExecEnabled(db, holders, x)
    ensures PassiveBut(db.inbox, ExecDb(db, holders, x, backoff).inbox, None)
    ensures db.inbox.Keys <= ExecDb(db, holders, x, backoff).inbox.Keys
  {
    if x.SweepCancelled? {
      InsertAllOnlyInserts(db, SweepEvents(db.jobs, x.order), x.at);
    } else if x.RecordCompletion? {
      RecordPassive(db, holders[x.holder].job, holders[x.holder].row, holders[x.holder].finish.value, x.at, backoff);
    }
  }

  lemma WorkPassive<B>(c: Config<B>, s: System<B>, w: nat, k: WorkStep)
    requires WorkEnabled(c, s, w, k)
    ensures PassiveBut(s.db.inbox, WorkNext(c, s, w, k).db.inbox, Acting(s, Work(w, k)))
    ensures s.db.inbox.Keys <= WorkNext(c, s, w, k).db.inbox.Keys
  {
    if k.Apply? {
      var input := InputOf(s, w, k.at, k.oracle);
      var reply := c.handler(input);
      if reply.Decided? { CommitPassive(s.db, input, reply, k.recheckAt); }
    } else if WorkerOf(s, w).Active() {
      OwnWritePassive(s.db.inbox, WorkNext(c, s, w, k).db.inbox, WorkerOf(s, w).id);
    }
  }

  /** Every step is passive on every row but the one its worker writes. */
  lemma StepIsPassive<B>(c: Config<B>, s: System<B>, step: Step<B>)
    requires Enabled(c, s, step)
    ensures PassiveBut(s.db.inbox, Next(c, s, step).db.inbox, Acting(s, step))
  {
    match step
    case Submit(u) => SubmitPassive(s.db, s.submitters, u);
    case Runtime(r) => RuntimePassive(s.db, r);
    case Work(w, k) => WorkPassive(c, s, w, k);
    case Exec(x) => ExecPassive(s.db, s.holders, x, c.poisonBackoff);
    case _ =>
  }

  /** The row worker `w` is between statements on is pending, of its shard, and still
      the event it read. */
  predicate OwnsRow<B>(c: Config<B>, inbox: map<EventId, InboxRow>, shards: nat, w: nat, k: Worker)
    requires k.Active()
  {
    && k.id in inbox && inbox[k.id].state.Pending?
    && SameEvent(inbox[k.id], k.row) && inbox[k.id].payload == k.row.payload
    && Shard(c, k.row.aggregate, shards) == w
  }

  ghost predicate WorkersOwn<B>(c: Config<B>, s: System<B>) {
    forall w | w in s.workers && s.workers[w].Active() :: OwnsRow(c, s.db.inbox, s.shards, w, s.workers[w])
  }

  /** The shard rule: no two workers are ever on the same event. */
  lemma OneWorkerPerEvent<B>(c: Config<B>, s: System<B>, v: nat, w: nat)
    requires WorkersOwn(c, s)
    requires v in s.workers && w in s.workers && s.workers[v].Active() && s.workers[w].Active()
    requires s.workers[v].id == s.workers[w].id
    ensures v == w
  {
    assert OwnsRow(c, s.db.inbox, s.shards, v, s.workers[v]) && OwnsRow(c, s.db.inbox, s.shards, w, s.workers[w]);
    assert s.workers[v].row.aggregate == s.workers[w].row.aggregate;
  }

  lemma PassiveKeepsRow<B>(c: Config<B>, before: map<EventId, InboxRow>, after: map<EventId, InboxRow>,
                           acting: Option<EventId>, shards: nat, w: nat, k: Worker)
    requires k.Active() && OwnsRow(c, before, shards, w, k)
    requires PassiveBut(before, after, acting) && acting != Some(k.id)
    ensures OwnsRow(c, after, shards, w, k)
  {
    assert Passive(before[k.id], after[k.id]);
  }

  /** A statement of one worker moves no other worker, holder or submitter. */
  lemma WorkLeavesOthers<B>(c: Config<B>, s: System<B>, w: nat, k: WorkStep)
    requires WorkEnabled(c, s, w, k)
    ensures var t := WorkNext(c, s, w, k);
            && t.holders == s.holders && t.submitters == s.submitters && t.shards == s.shards
            && w in t.workers && t.workers == s.workers[w := t.workers[w]]
  {
  }

  /** Ownership is kept by every step. */
  lemma OwnershipKept<B>(c: Config<B>, s: System<B>, step: Step<B>)
    requires WorkersOwn(c, s) && Enabled(c, s, step)
    ensures WorkersOwn(c, Next(c, s, step))
  {
    var t := Next(c, s, step);
    StepIsPassive(c, s, step);
    if step.Work? { WorkLeavesOthers(c, s, step.worker, step.work); }
    forall w | w in t.workers && t.workers[w].Active() ensures OwnsRow(c, t.db.inbox, t.shards, w, t.workers[w]) {
      if step.Work? && w == step.worker {
        ActingWorkerOwns(c, s, w, step.work);
      } else {
        assert w in s.workers && s.workers[w] == t.workers[w] && s.shards == t.shards;
        if Acting(s, step) == Some(s.workers[w].id) { OneWorkerPerEvent(c, s, w, step.worker); }
        PassiveKeepsRow(c, s.db.inbox, t.db.inbox, Acting(s, step), s.shards, w, s.workers[w]);
      }
    }
  }

  lemma ActingWorkerOwns<B>(c: Config<B>, s: System<B>, w: nat, k: WorkStep)
    requires WorkersOwn(c, s) && WorkEnabled(c, s, w, k)
    requires w in WorkNext(c, s, w, k).workers && WorkNext(c, s, w, k).workers[w].Active()
    ensures var t := WorkNext(c, s, w, k); OwnsRow(c, t.db.inbox, t.shards, w, t.workers[w])
  {
  }
}
