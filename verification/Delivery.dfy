/** Whole-run guarantees about events: applied at most once while retained, ACKed only
    when durable, and never left parked behind a change they wait for. */
module EngineDelivery {
  import opened Common
  import opened EngineTypes
  import opened EngineTables
  import opened EngineTransactions
  import opened EngineMachine
  import opened EngineOwnership

  // ------------------------------------------------------- reading the history

  predicate Commits<B>(e: Entry<B>, id: EventId) { e.Committed? && e.reply.Decided? && e.input.id == id }
  predicate Accepts<B>(e: Entry<B>, id: EventId) { Commits(e, id) && e.reply.verdict.Accept? }
  predicate Parks<B>(e: Entry<B>, id: EventId, ref: string) { Commits(e, id) && e.reply.verdict == Park(ref) }
  predicate Purges<B>(e: Entry<B>, id: EventId) { e.PurgedInbox? && id in e.events }

  /** Durably applied, parked or rejected. */
  predicate MakesDurable<B>(e: Entry<B>, id: EventId) { Commits(e, id) || e == Rejected(id) }

  /** A committed change that waiters on `ref` must see: the handler named the reference,
      or the status or phase of the aggregate it belongs to changed, or it was notified. */
  predicate Changes<B>(e: Entry<B>, ref: string) {
    || (e.Committed? && e.reply.Decided?
        && (|| ref in e.reply.effects.wakes
            || (ref == e.input.row.aggregate.WakeRef()
                && StatusOrPhaseChanged(e.input.current,
                                        UpsertAggregate(e.input.current, e.reply.effects, e.input.id)))))
    || (e.Notified? && ref in e.refs)
  }

  function TimeOf<B>(e: Entry<B>): int
    requires e.Committed? || e.Notified?
  {
    if e.Committed? then e.input.now else e.at
  }

  ghost predicate WasDurable<B>(log: seq<Entry<B>>, upTo: nat, id: EventId)
    requires upTo <= |log|
  {
    exists i | 0 <= i < upTo :: MakesDurable(log[i], id)
  }

  /** Applied or parked since the row was last purged. */
  ghost predicate CommittedSincePurge<B>(log: seq<Entry<B>>, id: EventId) {
    exists i | 0 <= i < |log| :: Commits(log[i], id) && forall k | i < k < |log| :: !Purges(log[k], id)
  }

  /** Entries that say nothing about any event. */
  predicate Silent<B>(e: Entry<B>) {
    || e.PurgedOutbox? || e.PurgedJobs? || e.Wrote? || e.Attempted? || e.Acknowledged?
    || e.Claimed? || e.LeaseEnded? || e.Swept? || e.JobEnded? || e.ResultRecorded?
  }

  // --------------------------------------------------------------- invariants

  /** An event accepted and not purged since is an `Applied` row. */
  ghost predicate AcceptedIsApplied<B>(s: System<B>) {
    forall i, id | 0 <= i < |s.log| && Accepts(s.log[i], id) ::
      || (exists k | i < k < |s.log| :: Purges(s.log[k], id))
      || (id in s.db.inbox && s.db.inbox[id].state.Applied?)
  }

  /** Between two acceptances of one id lies a purge of its row. */
  ghost predicate AppliedOnce<B>(log: seq<Entry<B>>) {
    forall i, j, id | 0 <= i < j < |log| && Accepts(log[i], id) && Accepts(log[j], id) ::
      exists k | i < k < j :: Purges(log[k], id)
  }

  /** Rows and workers that make the engine send an ACK are durable ones. A row is so by a
      commit of its own; a worker may still ACK after its row was purged. */
  ghost predicate AckersDurable<B>(s: System<B>) {
    && (forall id | id in s.db.inbox && AckAgain(s.db.inbox[id]) :: CommittedSincePurge(s.log, id))
    && (forall w | w in s.workers && (s.workers[w].Releasing? || s.workers[w].Acking?) ::
          WasDurable(s.log, |s.log|, s.workers[w].id))
    && (forall k | k in s.submitters && ReAcks(s.submitters[k]) :: WasDurable(s.log, |s.log|, s.submitters[k].event.id))
  }

  predicate ReAcks(u: Submitter) { u.Seen? && u.ackAgain }

  ghost predicate AcksSound<B>(log: seq<Entry<B>>) {
    forall k | 0 <= k < |log| && log[k].AckSent? :: WasDurable(log, k, log[k].id)
  }

  /** Entry `p` is the park of this very event that a waiting row stands on, and the row has
      been due since every later change of what it waits for. */
  ghost predicate ParkedAt<B>(log: seq<Entry<B>>, id: EventId, row: InboxRow, p: nat)
    requires row.waitingRef.Some?
  {
    && p < |log| && Parks(log[p], id, row.waitingRef.value) && SameEvent(row, log[p].input.row)
    && (forall k | p < k < |log| :: !Commits(log[k], id))
    && (forall k | p < k < |log| :: Changes(log[k], row.waitingRef.value) ==> row.nextAt <= TimeOf(log[k]))
  }

  ghost predicate NoLostWakeup<B>(s: System<B>) {
    forall id | id in s.db.inbox && s.db.inbox[id].state.Pending? && s.db.inbox[id].waitingRef.Some? ::
      exists p: nat :: ParkedAt(s.log, id, s.db.inbox[id], p)
  }

  ghost predicate Delivery<B>(c: Config<B>, s: System<B>) {
    && WorkersOwn(c, s) && AcceptedIsApplied(s) && AppliedOnce(s.log)
    && AckersDurable(s) && AcksSound(s.log) && NoLostWakeup(s)
  }

  // ------------------------------------------------------------ what steps log

  /** The entries a step appends. */
  function NewEntries<B>(c: Config<B>, s: System<B>, step: Step<B>): seq<Entry<B>>
    requires Enabled(c, s, step)
  {
    match step
    case Submit(u) => SubmitLog(s.submitters, u)
    case Runtime(r) => RuntimeLog(s.db, r)
    case Work(w, k) =>
      (match k
       case Apply(at, _, oracle) =>
         var input := InputOf(s, w, at, oracle);
         if c.handler(input).Decided? then [Committed(input, c.handler(input))] else []
       case FailUnhandled(_) => [Attempted(WorkerOf(s, w).id)]
       case ScheduleRetry(_, _) => [Attempted(WorkerOf(s, w).id)]
       case MarkRefused(_) => [Rejected(WorkerOf(s, w).id)]
       case MarkPoisonedEvent(_) => [Attempted(WorkerOf(s, w).id)]
       case DispatchAcks(room) => AckEntries(WorkerOf(s, w).id, WorkerOf(s, w).acks, room)
       case _ => [])
    case Exec(x) => ExecLog(s.db, s.holders, x)
    case Publish(p) => PublishLog(p)
    case Write(b) => [Wrote(b)]
    case Crash(_) => []
  }

  lemma LogGrows<B>(c: Config<B>, s: System<B>, step: Step<B>)
    requires Enabled(c, s, step)
    ensures Next(c, s, step).log == s.log + NewEntries(c, s, step)
  {
    if step.Work? {
      WorkLogGrows(c, s, step.worker, step.work);
    }
  }

  lemma WorkLogGrows<B>(c: Config<B>, s: System<B>, w: nat, k: WorkStep)
    requires WorkEnabled(c, s, w, k)
    ensures WorkNext(c, s, w, k).log == s.log + NewEntries(c, s, Work(w, k))
  {
  }

  lemma {:induction false} SweepEntriesSilent<B>(db: Db, order: seq<string>)
    requires forall id | id in order :: id in db.jobs
    ensures forall i | 0 <= i < |SweepEntries<B>(db, order)| :: Silent(SweepEntries<B>(db, order)[i])
  {
    if order != [] { SweepEntriesSilent<B>(db, order[..|order| - 1]); }
  }

  lemma ExecSilent<B>(db: Db, holders: map<nat, Holder>, x: ExecStep)
    requires ExecEnabled(db, holders, x)
    ensures forall i | 0 <= i < |ExecLog<B>(db, holders, x)| :: Silent(ExecLog<B>(db, holders, x)[i])
  {
    if x.SweepCancelled? { SweepEntriesSilent<B>(db, x.order); }
  }

  /** A purge is recorded with the rows it removes; no other statement of the runtime removes one. */
  lemma RuntimeEntries<B>(db: Db, r: RuntimeStep)
    ensures forall e: Entry<B> | e in RuntimeLog<B>(db, r) :: !e.Committed? && !e.Rejected?
    ensures forall id | id in db.inbox && id !in RuntimeDb(db, r).inbox ::
              |RuntimeLog<B>(db, r)| == 1 && Purges(RuntimeLog<B>(db, r)[0], id)
  {
  }

  /** A step outside the workers records no commit, and every inbox row it removes. */
  lemma OtherEntries<B>(c: Config<B>, s: System<B>, step: Step<B>)
    requires Enabled(c, s, step) && !step.Work?
    ensures forall i | 0 <= i < |NewEntries(c, s, step)| ::
              !NewEntries(c, s, step)[i].Committed? && !NewEntries(c, s, step)[i].Rejected?
    ensures forall id | id in s.db.inbox && id !in Next(c, s, step).db.inbox ::
              |NewEntries(c, s, step)| == 1 && Purges(NewEntries(c, s, step)[0], id)
  {
    match step
    case Submit(u) => SubmitPassive(s.db, s.submitters, u);
    case Runtime(r) => RuntimeEntries<B>(s.db, r);
    case Exec(x) =>
      ExecSilent<B>(s.db, s.holders, x);
      ExecPassive(s.db, s.holders, x, c.poisonBackoff);
    case _ =>
  }

  // ---------------------------------------------------------- applied at most once

  lemma AcceptedIsAppliedKept<B>(c: Config<B>, s: System<B>, step: Step<B>)
    requires WorkersOwn(c, s) && AcceptedIsApplied(s) && Enabled(c, s, step)
    ensures AcceptedIsApplied(Next(c, s, step))
  {
    var t, es := Next(c, s, step), NewEntries(c, s, step);
    LogGrows(c, s, step);
    forall i, id | 0 <= i < |t.log| && Accepts(t.log[i], id)
      ensures (exists k | i < k < |t.log| :: Purges(t.log[k], id))
              || (id in t.db.inbox && t.db.inbox[id].state.Applied?)
    {
      if i < |s.log| {
        assert t.log[i] == s.log[i];
        OldAcceptance(c, s, step, i, id);
      } else {
        assert t.log[i] == es[i - |s.log|];
        NewAcceptance(c, s, step, id);
      }
    }
  }

  lemma OldAcceptance<B>(c: Config<B>, s: System<B>, step: Step<B>, i: nat, id: EventId)
    requires WorkersOwn(c, s) && AcceptedIsApplied(s) && Enabled(c, s, step) && i < |s.log| && Accepts(s.log[i], id)
    ensures var t := Next(c, s, step);
            || (exists k | i < k < |t.log| :: Purges(t.log[k], id))
            || (id in t.db.inbox && t.db.inbox[id].state.Applied?)
  {
    var t, es := Next(c, s, step), NewEntries(c, s, step);
    LogGrows(c, s, step);
    if k :| i < k < |s.log| && Purges(s.log[k], id) {
      assert t.log[k] == s.log[k];
    } else {
      assert id in s.db.inbox && s.db.inbox[id].state.Applied?;
      AppliedStays(c, s, step, id);
      if id !in t.db.inbox { assert t.log[|s.log|] == es[0]; }
    }
  }

  lemma AppliedStays<B>(c: Config<B>, s: System<B>, step: Step<B>, id: EventId)
    requires WorkersOwn(c, s) && Enabled(c, s, step) && id in s.db.inbox && s.db.inbox[id].state.Applied?
    ensures var t, es := Next(c, s, step), NewEntries(c, s, step);
            (id in t.db.inbox && t.db.inbox[id].state.Applied?) || (id !in t.db.inbox && |es| == 1 && Purges(es[0], id))
  {
    StepIsPassive(c, s, step);
    if step.Work? {
      WorkPassive(c, s, step.worker, step.work);
      var k := WorkerOf(s, step.worker);
      if k.Active() { assert OwnsRow(c, s.db.inbox, s.shards, step.worker, k); }
    } else {
      OtherEntries(c, s, step);
    }
  }

  /** An acceptance is new: the row was pending, and is applied now. */
  lemma NewAcceptance<B>(c: Config<B>, s: System<B>, step: Step<B>, id: EventId)
    requires WorkersOwn(c, s) && Enabled(c, s, step)
    requires exists e | e in NewEntries(c, s, step) :: Accepts(e, id)
    ensures id in s.db.inbox && s.db.inbox[id].state.Pending?
    ensures id in Next(c, s, step).db.inbox && Next(c, s, step).db.inbox[id].state.Applied?
    ensures |NewEntries(c, s, step)| == 1
  {
    if step.Work? {
      var w, k := step.worker, step.work;
      assert OwnsRow(c, s.db.inbox, s.shards, w, WorkerOf(s, w));
      var input := InputOf(s, w, k.at, k.oracle);
      var reply := c.handler(input);
      CommitMark(s.db, input, reply, k.recheckAt);
    } else {
      OtherEntries(c, s, step);
    }
  }

  lemma AppliedOnceKept<B>(c: Config<B>, s: System<B>, step: Step<B>)
    requires WorkersOwn(c, s) && AcceptedIsApplied(s) && AppliedOnce(s.log) && Enabled(c, s, step)
    ensures AppliedOnce(Next(c, s, step).log)
  {
    var es := NewEntries(c, s, step);
    LogGrows(c, s, step);
    forall k, id | 0 <= k < |es| && Accepts(es[k], id)
      ensures |es| == 1 && forall i | 0 <= i < |s.log| && Accepts(s.log[i], id) :: exists p | i < p < |s.log| ::
              Purges(s.log[p], id)
    {
      NewAcceptance(c, s, step, id);
    }
    AppliedOnceGrows(s.log, es);
  }

  lemma AppliedOnceGrows<B>(log: seq<Entry<B>>, es: seq<Entry<B>>)
    requires AppliedOnce(log)
    requires forall k, id | 0 <= k < |es| && Accepts(es[k], id) ::
               |es| == 1 && forall i | 0 <= i < |log| && Accepts(log[i], id) :: exists p | i < p < |log| ::
                 Purges(log[p], id)
    ensures AppliedOnce(log + es)
  {
    var all := log + es;
    forall i, j, id | 0 <= i < j < |all| && Accepts(all[i], id) && Accepts(all[j], id)
      ensures exists k | i < k < j :: Purges(all[k], id)
    {
      if j < |log| {
        assert all[i] == log[i] && all[j] == log[j];
        var k :| i < k < j && Purges(log[k], id);
        assert all[k] == log[k];
      } else {
        assert all[j] == es[j - |log|] && all[i] == log[i];
        var k :| i < k < |log| && Purges(log[k], id);
        assert all[k] == log[k];
      }
    }
  }

  // ---------------------------------------------------------------------- ACKs

  lemma DurableLater<B>(log: seq<Entry<B>>, i: nat, k: nat, id: EventId)
    requires i <= k <= |log| && WasDurable(log, i, id)
    ensures WasDurable(log, k, id)
  {
    var m :| 0 <= m < i && MakesDurable(log[m], id);
  }

  lemma DurableGrows<B>(log: seq<Entry<B>>, es: seq<Entry<B>>, id: EventId)
    ensures WasDurable(log, |log|, id) ==> WasDurable(log + es, |log + es|, id)
    ensures forall k | 0 <= k <= |log| :: WasDurable(log, k, id) ==> WasDurable(log + es, k, id)
    ensures forall i | 0 <= i < |es| && MakesDurable(es[i], id) :: WasDurable(log + es, |log + es|, id)
  {
    forall k | 0 <= k <= |log| && WasDurable(log, k, id) ensures WasDurable(log + es, k, id) {
      var i :| 0 <= i < k && MakesDurable(log[i], id);
      assert (log + es)[i] == log[i];
    }
    if WasDurable(log, |log|, id) {
      var i :| 0 <= i < |log| && MakesDurable(log[i], id);
      assert (log + es)[i] == log[i];
    }
    forall i | 0 <= i < |es| && MakesDurable(es[i], id) ensures WasDurable(log + es, |log + es|, id) {
      assert (log + es)[|log| + i] == es[i];
    }
  }

  /** `id` was durable before the step, or the step makes it so. */
  ghost predicate DurableAfter<B>(log: seq<Entry<B>>, es: seq<Entry<B>>, id: EventId) {
    WasDurable(log, |log|, id) || exists i | 0 <= i < |es| :: MakesDurable(es[i], id)
  }

  lemma PassiveAck(before: map<EventId, InboxRow>, after: map<EventId, InboxRow>, acting: Option<EventId>, id: EventId)
    requires PassiveBut(before, after, acting) && acting != Some(id) && id in after && AckAgain(after[id])
    ensures id in before && AckAgain(before[id])
  {
  }

  /** The only statement of a worker that leaves its row ACKable is a commit. */
  lemma ActingAck<B>(c: Config<B>, s: System<B>, w: nat, k: WorkStep)
    requires WorkEnabled(c, s, w, k) && WorkerOf(s, w).Active()
    requires var id := WorkerOf(s, w).id;
             id in s.db.inbox && s.db.inbox[id].state.Pending?
             && id in WorkNext(c, s, w, k).db.inbox && AckAgain(WorkNext(c, s, w, k).db.inbox[id])
    ensures || AckAgain(s.db.inbox[WorkerOf(s, w).id])
            || (k.Apply? && c.handler(InputOf(s, w, k.at, k.oracle)).Decided?)
  {
  }

  lemma RuntimePurgesGone<B>(db: Db, r: RuntimeStep, id: EventId)
    requires exists i | 0 <= i < |RuntimeLog<B>(db, r)| :: Purges(RuntimeLog<B>(db, r)[i], id)
    ensures id !in RuntimeDb(db, r).inbox
  {
  }

  /** A row that is still there was not purged. */
  lemma PurgedIsGone<B>(c: Config<B>, s: System<B>, step: Step<B>, i: nat, id: EventId)
    requires Enabled(c, s, step) && i < |NewEntries(c, s, step)| && Purges(NewEntries(c, s, step)[i], id)
    ensures id !in Next(c, s, step).db.inbox
  {
    match step
    case Runtime(r) => RuntimePurgesGone<B>(s.db, r, id);
    case Exec(x) =>
      ExecSilent<B>(s.db, s.holders, x);
      assert false;
    case _ =>
  }

  lemma CommittedStays<B>(log: seq<Entry<B>>, es: seq<Entry<B>>, id: EventId)
    requires CommittedSincePurge(log, id) && forall k | 0 <= k < |es| :: !Purges(es[k], id)
    ensures CommittedSincePurge(log + es, id)
  {
    var i :| 0 <= i < |log| && Commits(log[i], id) && forall k | i < k < |log| :: !Purges(log[k], id);
    assert (log + es)[i] == log[i];
    forall k | i < k < |log + es| ensures !Purges((log + es)[k], id) {
      assert (log + es)[k] == if k < |log| then log[k] else es[k - |log|];
    }
  }

  lemma CommittedNow<B>(log: seq<Entry<B>>, es: seq<Entry<B>>, id: EventId)
    requires |es| == 1 && Commits(es[0], id)
    ensures CommittedSincePurge(log + es, id)
  {
    assert (log + es)[|log|] == es[0];
  }

  /** A row the engine would ACK again was committed since it was last purged. */
  lemma AckRowsDurable<B>(c: Config<B>, s: System<B>, step: Step<B>, id: EventId)
    requires WorkersOwn(c, s) && AckersDurable(s) && Enabled(c, s, step)
    requires id in Next(c, s, step).db.inbox && AckAgain(Next(c, s, step).db.inbox[id])
    ensures CommittedSincePurge(s.log + NewEntries(c, s, step), id)
  {
    var es := NewEntries(c, s, step);
    AckRowOrigin(c, s, step, id);
    if |es| == 1 && Commits(es[0], id) {
      CommittedNow(s.log, es, id);
    } else {
      forall k | 0 <= k < |es| ensures !Purges(es[k], id) {
        if Purges(es[k], id) { PurgedIsGone(c, s, step, k, id); assert false; }
      }
      CommittedStays(s.log, es, id);
    }
  }

  /** A row is ACKable after a step if it was before, or if the step commits it. */
  lemma AckRowOrigin<B>(c: Config<B>, s: System<B>, step: Step<B>, id: EventId)
    requires WorkersOwn(c, s) && Enabled(c, s, step)
    requires id in Next(c, s, step).db.inbox && AckAgain(Next(c, s, step).db.inbox[id])
    ensures || (id in s.db.inbox && AckAgain(s.db.inbox[id]))
            || (|NewEntries(c, s, step)| == 1 && Commits(NewEntries(c, s, step)[0], id))
  {
    if Acting(s, step) == Some(id) {
      var w, k := step.worker, step.work;
      assert OwnsRow(c, s.db.inbox, s.shards, w, WorkerOf(s, w));
      ActingAck(c, s, w, k);
    } else {
      StepIsPassive(c, s, step);
      PassiveAck(s.db.inbox, Next(c, s, step).db.inbox, Acting(s, step), id);
    }
  }

  lemma AckWorkersDurable<B>(c: Config<B>, s: System<B>, step: Step<B>, v: nat)
    requires AckersDurable(s) && Enabled(c, s, step)
    requires var t := Next(c, s, step); v in t.workers && (t.workers[v].Releasing? || t.workers[v].Acking?)
    ensures DurableAfter(s.log, NewEntries(c, s, step), Next(c, s, step).workers[v].id)
  {
    if step.Work? && v == step.worker {
      OwnAckDurable(c, s, v, step.work);
    } else {
      if step.Work? { WorkLeavesOthers(c, s, step.worker, step.work); }
      assert v in s.workers && s.workers[v] == Next(c, s, step).workers[v];
    }
  }

  /** A worker comes to its ACKs by a commit or a rejection of its own. */
  lemma OwnAckDurable<B>(c: Config<B>, s: System<B>, w: nat, k: WorkStep)
    requires AckersDurable(s) && WorkEnabled(c, s, w, k)
    requires WorkerOf(WorkNext(c, s, w, k), w).Releasing? || WorkerOf(WorkNext(c, s, w, k), w).Acking?
    ensures DurableAfter(s.log, NewEntries(c, s, Work(w, k)), WorkerOf(WorkNext(c, s, w, k), w).id)
  {
    if k.Apply? || k.MarkRefused? {
      assert MakesDurable(NewEntries(c, s, Work(w, k))[0], WorkerOf(WorkNext(c, s, w, k), w).id);
    } else {
      assert k.ReleaseKind? && w in s.workers && s.workers[w].Releasing?;
    }
  }

  lemma CommittedIsDurable<B>(log: seq<Entry<B>>, id: EventId)
    requires CommittedSincePurge(log, id)
    ensures WasDurable(log, |log|, id)
  {
    var i :| 0 <= i < |log| && Commits(log[i], id) && forall k | i < k < |log| :: !Purges(log[k], id);
    assert MakesDurable(log[i], id);
  }

  /** A submitter that will ACK again has read a durable row. */
  lemma SubmittersDurable<B>(c: Config<B>, s: System<B>, step: Step<B>, k: nat)
    requires AckersDurable(s) && Enabled(c, s, step)
    requires var t := Next(c, s, step); k in t.submitters && ReAcks(t.submitters[k])
    ensures WasDurable(s.log, |s.log|, Next(c, s, step).submitters[k].event.id)
  {
    NewSubmitter(c, s, step, k);
    if !(k in s.submitters && ReAcks(s.submitters[k])) {
      CommittedIsDurable(s.log, Next(c, s, step).submitters[k].event.id);
    }
  }

  /** A submitter comes to ACK again by reading a row that is applied or parked. */
  lemma NewSubmitter<B>(c: Config<B>, s: System<B>, step: Step<B>, k: nat)
    requires Enabled(c, s, step)
    requires var t := Next(c, s, step); k in t.submitters && ReAcks(t.submitters[k])
    ensures k in s.submitters && s.submitters[k].event == Next(c, s, step).submitters[k].event
    ensures !ReAcks(s.submitters[k]) ==>
              && step == Submit(ReadKnown(k))
              && s.submitters[k].event.id in s.db.inbox && AckAgain(s.db.inbox[s.submitters[k].event.id])
  {
  }

  lemma AckersDurableKept<B>(c: Config<B>, s: System<B>, step: Step<B>)
    requires WorkersOwn(c, s) && AckersDurable(s) && Enabled(c, s, step)
    ensures AckersDurable(Next(c, s, step))
  {
    var t, es := Next(c, s, step), NewEntries(c, s, step);
    LogGrows(c, s, step);
    forall id | id in t.db.inbox && AckAgain(t.db.inbox[id]) ensures CommittedSincePurge(t.log, id) {
      AckRowsDurable(c, s, step, id);
    }
    forall w | w in t.workers && (t.workers[w].Releasing? || t.workers[w].Acking?)
      ensures WasDurable(t.log, |t.log|, t.workers[w].id)
    {
      AckWorkersDurable(c, s, step, w);
      DurableGrows(s.log, es, t.workers[w].id);
    }
    forall k | k in t.submitters && ReAcks(t.submitters[k])
      ensures WasDurable(t.log, |t.log|, t.submitters[k].event.id)
    {
      SubmittersDurable(c, s, step, k);
      DurableGrows(s.log, es, t.submitters[k].event.id);
    }
  }

  /** An ACK a step sends is for an event that was durable before it. */
  lemma NewAckDurable<B>(c: Config<B>, s: System<B>, step: Step<B>, i: nat)
    requires AckersDurable(s) && Enabled(c, s, step)
    requires i < |NewEntries(c, s, step)| && NewEntries(c, s, step)[i].AckSent?
    ensures WasDurable(s.log, |s.log|, NewEntries(c, s, step)[i].id)
  {
    if step.Exec? {
      ExecSilent<B>(s.db, s.holders, step.exec);
      assert false;
    }
  }

  lemma AcksSoundKept<B>(c: Config<B>, s: System<B>, step: Step<B>)
    requires AckersDurable(s) && AcksSound(s.log) && Enabled(c, s, step)
    ensures AcksSound(Next(c, s, step).log)
  {
    var t, es := Next(c, s, step), NewEntries(c, s, step);
    LogGrows(c, s, step);
    forall k | 0 <= k < |t.log| && t.log[k].AckSent? ensures WasDurable(t.log, k, t.log[k].id) {
      DurableGrows(s.log, es, t.log[k].id);
      if k < |s.log| {
        assert t.log[k] == s.log[k];
      } else {
        assert t.log[k] == es[k - |s.log|];
        NewAckDurable(c, s, step, k - |s.log|);
        DurableLater(t.log, |s.log|, k, t.log[k].id);
      }
    }
  }

  // ------------------------------------------------------------ no lost wakeup

  /** The aggregate row the commit compares with is the one the handler saw. */
  lemma CommitSeesInput(db: Db, recorded: seq<NewEvent>, cleared: seq<string>, now: int, a: AggregateRef)
    ensures FindAggregate(HandlerWrites(db, recorded, cleared, now), a) == FindAggregate(db, a)
  {
    InsertAllKeepsAggregates(db, recorded, now);
  }

  lemma WakeMakesDue(inbox: map<EventId, InboxRow>, refs: seq<string>, now: int, id: EventId, ref: string)
    requires ref in refs && id in Wake(inbox, refs, now)
    requires Wake(inbox, refs, now)[id].state.Pending? && Wake(inbox, refs, now)[id].waitingRef == Some(ref)
    ensures Wake(inbox, refs, now)[id].nextAt <= now
  {
  }

  /** A commit makes every other waiter on what it changes due at once. */
  lemma CommitWakes<B>(db: Db, input: ApplyInput<B>, reply: Reply<B>, recheckAt: int, id: EventId, ref: string)
    requires reply.Decided? && input.current == FindAggregate(db, input.row.aggregate)
    requires Changes(Committed(input, reply), ref) && id != input.id
    requires var inbox := CommitReply(db, input, reply, recheckAt).inbox;
             id in inbox && inbox[id].state.Pending? && inbox[id].waitingRef == Some(ref)
    ensures CommitReply(db, input, reply, recheckAt).inbox[id].nextAt <= input.now
  {
    CommitSeesInput(db, reply.recorded, reply.cleared, input.now, input.row.aggregate);
    var refs := CommitRefs(input.row.aggregate, input.current, reply.effects, input.id);
    assert ref in refs;
    var inserted := HandlerWrites(db, reply.recorded, reply.cleared, input.now).inbox;
    assert CommitReply(db, input, reply, recheckAt).inbox[id] == Wake(inserted, refs, input.now)[id];
    WakeMakesDue(inserted, refs, input.now, id, ref);
  }

  lemma {:induction false} InsertAllKeepsAggregates(db: Db, es: seq<NewEvent>, now: int)
    ensures InsertInboxAll(db, es, now) == db.(inbox := InsertInboxAll(db, es, now).inbox,
                                               nextSeq := InsertInboxAll(db, es, now).nextSeq)
  {
    if es != [] { InsertAllKeepsAggregates(db, es[..|es| - 1], now); }
  }

  /** Whatever a step changes, the waiters on it are due from then on. */
  lemma StepWakes<B>(c: Config<B>, s: System<B>, step: Step<B>, i: nat, id: EventId, ref: string)
    requires Enabled(c, s, step) && i < |NewEntries(c, s, step)| && Changes(NewEntries(c, s, step)[i], ref)
    requires Acting(s, step) != Some(id)
    requires var inbox := Next(c, s, step).db.inbox;
             id in inbox && inbox[id].state.Pending? && inbox[id].waitingRef == Some(ref)
    ensures Next(c, s, step).db.inbox[id].nextAt <= TimeOf(NewEntries(c, s, step)[i])
  {
    match step
    case Work(w, k) =>
      var input := InputOf(s, w, k.at, k.oracle);
      CommitWakes(s.db, input, c.handler(input), k.recheckAt, id, ref);
    case Exec(x) =>
      ExecSilent<B>(s.db, s.holders, x);
      assert false;
    case _ =>
  }

  lemma OnlyActingCommits<B>(c: Config<B>, s: System<B>, step: Step<B>, i: nat, id: EventId)
    requires Enabled(c, s, step) && i < |NewEntries(c, s, step)| && Commits(NewEntries(c, s, step)[i], id)
    ensures Acting(s, step) == Some(id)
  {
    if !step.Work? {
      OtherEntries(c, s, step);
      assert false;
    }
  }

  lemma ParkedExtends<B>(log: seq<Entry<B>>, es: seq<Entry<B>>, id: EventId, before: InboxRow, after: InboxRow, p: nat)
    requires before.waitingRef.Some? && after.waitingRef == before.waitingRef && after.nextAt <= before.nextAt
    requires SameEvent(before, after)
    requires ParkedAt(log, id, before, p)
    requires forall i | 0 <= i < |es| :: !Commits(es[i], id)
               && (Changes(es[i], after.waitingRef.value) ==> after.nextAt <= TimeOf(es[i]))
    ensures ParkedAt(log + es, id, after, p)
  {
    forall k | p < k < |log + es|
      ensures !Commits((log + es)[k], id)
              && (Changes((log + es)[k], after.waitingRef.value) ==> after.nextAt <= TimeOf((log + es)[k]))
    {
      assert (log + es)[k] == if k < |log| then log[k] else es[k - |log|];
    }
  }

  /** A row that waits and is not the acting worker's keeps its park. */
  lemma WaiterKept<B>(c: Config<B>, s: System<B>, step: Step<B>, id: EventId)
    requires NoLostWakeup(s) && Enabled(c, s, step) && Acting(s, step) != Some(id)
    requires var inbox := Next(c, s, step).db.inbox;
             id in inbox && inbox[id].state.Pending? && inbox[id].waitingRef.Some?
    ensures exists p: nat :: ParkedAt(s.log + NewEntries(c, s, step), id, Next(c, s, step).db.inbox[id], p)
  {
    var es, row := NewEntries(c, s, step), Next(c, s, step).db.inbox[id];
    StepIsPassive(c, s, step);
    assert Passive(s.db.inbox[id], row);
    forall i | 0 <= i < |es|
      ensures !Commits(es[i], id) && (Changes(es[i], row.waitingRef.value) ==> row.nextAt <= TimeOf(es[i]))
    {
      if Commits(es[i], id) { OnlyActingCommits(c, s, step, i, id); assert false; }
      if Changes(es[i], row.waitingRef.value) { StepWakes(c, s, step, i, id, row.waitingRef.value); }
    }
    var p: nat :| ParkedAt(s.log, id, s.db.inbox[id], p);
    ParkedExtends(s.log, es, id, s.db.inbox[id], row, p);
  }

  lemma CommitMark<B>(db: Db, input: ApplyInput<B>, reply: Reply<B>, recheckAt: int)
    requires reply.Decided? && input.id in db.inbox && db.inbox[input.id].state.Pending?
    ensures var inbox := CommitReply(db, input, reply, recheckAt).inbox;
            && input.id in inbox
            && (reply.verdict.Accept? ==> inbox[input.id].state.Applied?)
            && (reply.verdict.Park? ==> inbox[input.id].waitingRef == Some(reply.verdict.ref))
            && SameEvent(db.inbox[input.id], inbox[input.id])
  {
    InsertAllOnlyInserts(db, reply.recorded, input.now);
    assert CommitInbox(db, input, reply, recheckAt) == CommitReply(db, input, reply, recheckAt).inbox;
  }

  /** The acting worker's row waits after the step only if it was left alone or parked anew. */
  lemma ActingWaiter<B>(c: Config<B>, s: System<B>, w: nat, k: WorkStep)
    requires WorkersOwn(c, s) && WorkEnabled(c, s, w, k) && WorkerOf(s, w).Active()
    requires var inbox := WorkNext(c, s, w, k).db.inbox;
             var id := WorkerOf(s, w).id;
             id in inbox && inbox[id].state.Pending? && inbox[id].waitingRef.Some?
    ensures var id, t := WorkerOf(s, w).id, WorkNext(c, s, w, k);
            || (|NewEntries(c, s, Work(w, k))| == 0 && id in s.db.inbox && t.db.inbox[id] == s.db.inbox[id])
            || (|NewEntries(c, s, Work(w, k))| == 1
                && Parks(NewEntries(c, s, Work(w, k))[0], id, t.db.inbox[id].waitingRef.value)
                && SameEvent(t.db.inbox[id], NewEntries(c, s, Work(w, k))[0].input.row))
  {
    assert OwnsRow(c, s.db.inbox, s.shards, w, WorkerOf(s, w));
    if k.Apply? {
      var input := InputOf(s, w, k.at, k.oracle);
      if c.handler(input).Decided? { CommitMark(s.db, input, c.handler(input), k.recheckAt); }
    }
  }

  lemma NoLostWakeupKept<B>(c: Config<B>, s: System<B>, step: Step<B>)
    requires WorkersOwn(c, s) && NoLostWakeup(s) && Enabled(c, s, step)
    ensures NoLostWakeup(Next(c, s, step))
  {
    var t, es := Next(c, s, step), NewEntries(c, s, step);
    LogGrows(c, s, step);
    forall id | id in t.db.inbox && t.db.inbox[id].state.Pending? && t.db.inbox[id].waitingRef.Some?
      ensures exists p: nat :: ParkedAt(t.log, id, t.db.inbox[id], p)
    {
      if Acting(s, step) == Some(id) {
        ActingWaiter(c, s, step.worker, step.work);
        if |es| == 0 {
          assert t.log == s.log;
        } else {
          assert ParkedAt(t.log, id, t.db.inbox[id], |s.log|);
        }
      } else {
        WaiterKept(c, s, step, id);
      }
    }
  }

  // ------------------------------------------------------------------ theorems

  lemma DeliveryKept<B>(c: Config<B>, s: System<B>, step: Step<B>)
    requires Delivery(c, s) && Enabled(c, s, step)
    ensures Delivery(c, Next(c, s, step))
  {
    OwnershipKept(c, s, step);
    AcceptedIsAppliedKept(c, s, step);
    AppliedOnceKept(c, s, step);
    AckersDurableKept(c, s, step);
    AcksSoundKept(c, s, step);
    NoLostWakeupKept(c, s, step);
  }

  /** Every state of every run delivers: induction over the steps. */
  lemma {:induction false} DeliveryOverRuns<B(!new)>(c: Config<B>, run: seq<System<B>>, steps: seq<Step<B>>)
    requires IsRun(c, run, steps) && Delivery(c, run[0])
    ensures forall i | 0 <= i < |run| :: Delivery(c, run[i])
  {
    if steps != [] {
      var n := |steps| - 1;
      DeliveryOverRuns(c, run[..n + 1], steps[..n]);
      assert Delivery(c, run[..n + 1][n]);
      DeliveryKept(c, run[n], steps[n]);
    }
  }

  lemma InitDelivers<B>(c: Config<B>, business: B, shards: nat)
    ensures Delivery(c, Init(business, shards))
  {
  }

  /** While its inbox row is retained, an event id is accepted at most once, under every
      interleaving of duplicates, parks, failures, timeouts, panics, crashes and restarts. */
  lemma AcceptedOncePerRetention<B(!new)>(c: Config<B>, run: seq<System<B>>, steps: seq<Step<B>>, business: B,
                                          shards: nat, id: EventId, i: nat, j: nat)
    requires IsRun(c, run, steps) && run[0] == Init(business, shards)
    requires var log := run[|steps|].log; i < j < |log| && Accepts(log[i], id) && Accepts(log[j], id)
    ensures exists k | i < k < j :: Purges(run[|steps|].log[k], id)
  {
    InitDelivers(c, business, shards);
    DeliveryOverRuns(c, run, steps);
    assert Delivery(c, run[|steps|]);
  }

  /** An ACK for an event's own target follows a durable apply, park or rejection of that
      event, including through duplicate submissions. */
  lemma AckOnlyWhenDurable<B(!new)>(c: Config<B>, run: seq<System<B>>, steps: seq<Step<B>>, business: B,
                                    shards: nat, k: nat)
    requires IsRun(c, run, steps) && run[0] == Init(business, shards)
    requires k < |run[|steps|].log| && run[|steps|].log[k].AckSent?
    ensures exists i | 0 <= i < k :: MakesDurable(run[|steps|].log[i], run[|steps|].log[k].id)
  {
    InitDelivers(c, business, shards);
    DeliveryOverRuns(c, run, steps);
    assert Delivery(c, run[|steps|]);
  }

  /** The read a submitter acts on: the row was applied or parked then. */
  ghost predicate ReadAt<B>(run: seq<System<B>>, steps: seq<Step<B>>, m: nat, k: nat, id: EventId)
    requires |run| == |steps| + 1
  {
    && m < |steps| && steps[m] == Submit(ReadKnown(k))
    && id in run[m].db.inbox && AckAgain(run[m].db.inbox[id])
  }

  lemma {:induction false} SubmitterHasRead<B(!new)>(c: Config<B>, run: seq<System<B>>, steps: seq<Step<B>>,
                                                     business: B, shards: nat, k: nat, n: nat)
    requires IsRun(c, run, steps) && run[0] == Init(business, shards) && n <= |steps|
    requires k in run[n].submitters && ReAcks(run[n].submitters[k])
    ensures exists m | 0 <= m < n :: ReadAt(run, steps, m, k, run[n].submitters[k].event.id)
  {
    var s, step := run[n - 1], steps[n - 1];
    assert Enabled(c, s, step) && run[n] == Next(c, s, step);
    NewSubmitter(c, s, step, k);
    if ReAcks(s.submitters[k]) {
      SubmitterHasRead(c, run, steps, business, shards, k, n - 1);
    } else {
      assert ReadAt(run, steps, n - 1, k, run[n].submitters[k].event.id);
    }
  }

  /** A duplicate submission is ACKed only on a read that found the event applied or parked
      since its row was last purged: a commit from before a purge does not count. */
  lemma ReAckedOnlyWhenKept<B(!new)>(c: Config<B>, run: seq<System<B>>, steps: seq<Step<B>>, business: B,
                                     shards: nat, k: nat, n: nat)
    requires IsRun(c, run, steps) && run[0] == Init(business, shards) && n < |steps|
    requires steps[n] == Submit(AnswerKnown(k, true)) && run[n + 1].log != run[n].log
    ensures var e := run[n].submitters[k].event;
            && run[n + 1].log == run[n].log + [AckSent(e.id, e.ack.value)]
            && exists m | 0 <= m < n :: ReadAt(run, steps, m, k, e.id) && CommittedSincePurge(run[m].log, e.id)
  {
    assert Enabled(c, run[n], steps[n]) && run[n + 1] == Next(c, run[n], steps[n]);
    assert run[n].log + [] == run[n].log;
    var e := run[n].submitters[k].event;
    SubmitterHasRead(c, run, steps, business, shards, k, n);
    InitDelivers(c, business, shards);
    DeliveryOverRuns(c, run, steps);
    var m :| 0 <= m < n && ReadAt(run, steps, m, k, e.id);
    assert Delivery(c, run[m]);
  }

  /** An accepted event is never on a worker again while its row is kept: whoever stands on
      it, every earlier acceptance was purged since. */
  lemma AcceptedNeverRunsAgain<B(!new)>(c: Config<B>, run: seq<System<B>>, steps: seq<Step<B>>, business: B,
                                        shards: nat, i: nat, n: nat, w: nat)
    requires IsRun(c, run, steps) && run[0] == Init(business, shards) && n <= |steps| && i < |run[n].log|
    requires WorkerOf(run[n], w).Active() && Accepts(run[n].log[i], WorkerOf(run[n], w).id)
    ensures exists k | i < k < |run[n].log| :: Purges(run[n].log[k], WorkerOf(run[n], w).id)
  {
    InitDelivers(c, business, shards);
    DeliveryOverRuns(c, run, steps);
    assert Delivery(c, run[n]);
    assert OwnsRow(c, run[n].db.inbox, run[n].shards, w, WorkerOf(run[n], w));
  }

  /** If an event is still parked once the clock passed every committed change, nothing it
      waits for changed since its park. */
  lemma StillParkedMeansUnchanged<B(!new)>(c: Config<B>, run: seq<System<B>>, steps: seq<Step<B>>, business: B,
                                           shards: nat, id: EventId, now: int)
    requires IsRun(c, run, steps) && run[0] == Init(business, shards)
    requires var s := run[|steps|];
             && id in s.db.inbox && s.db.inbox[id].state.Pending? && s.db.inbox[id].waitingRef.Some?
             && s.db.inbox[id].nextAt > now
             && forall e | e in s.log && (e.Committed? || e.Notified?) :: TimeOf(e) <= now
    ensures var s := run[|steps|];
            exists p: nat | p < |s.log| ::
              && Parks(s.log[p], id, s.db.inbox[id].waitingRef.value)
              && forall k | p < k < |s.log| ::
                   !Commits(s.log[k], id) && !Changes(s.log[k], s.db.inbox[id].waitingRef.value)
  {
    InitDelivers(c, business, shards);
    DeliveryOverRuns(c, run, steps);
    assert Delivery(c, run[|steps|]);
    UnchangedSincePark(run[|steps|].log, run[|steps|].db.inbox, id, now);
  }

  lemma UnchangedSincePark<B>(log: seq<Entry<B>>, inbox: map<EventId, InboxRow>, id: EventId, now: int)
    requires id in inbox && inbox[id].waitingRef.Some? && inbox[id].nextAt > now
    requires exists p: nat :: ParkedAt(log, id, inbox[id], p)
    requires forall e | e in log && (e.Committed? || e.Notified?) :: TimeOf(e) <= now
    ensures exists p: nat | p < |log| ::
              && Parks(log[p], id, inbox[id].waitingRef.value)
              && forall k | p < k < |log| :: !Commits(log[k], id) && !Changes(log[k], inbox[id].waitingRef.value)
  {
    var p: nat :| ParkedAt(log, id, inbox[id], p);
    forall k | p < k < |log| ensures !Changes(log[k], inbox[id].waitingRef.value) {
      assert log[k] in log;
    }
  }

  /** No apply commits against a row that was no longer pending: the row the worker read
      is the row it marks. */
  lemma CommitAlwaysMarks<B(!new)>(c: Config<B>, run: seq<System<B>>, steps: seq<Step<B>>, business: B,
                                   shards: nat, w: nat)
    requires IsRun(c, run, steps) && run[0] == Init(business, shards)
    requires WorkerOf(run[|steps|], w).Loaded?
    ensures var s, k := run[|steps|], WorkerOf(run[|steps|], w);
            && k.id in s.db.inbox && s.db.inbox[k.id].state.Pending?
            && SameEvent(s.db.inbox[k.id], k.row) && s.db.inbox[k.id].payload == k.row.payload
  {
    InitDelivers(c, business, shards);
    DeliveryOverRuns(c, run, steps);
    assert Delivery(c, run[|steps|]);
    assert OwnsRow(c, run[|steps|].db.inbox, run[|steps|].shards, w, WorkerOf(run[|steps|], w));
  }
}
