/** The result rows that jobs leave in the inbox: each is written once while it is kept,
    never rewritten, and only the generation that ended the job reports without the
    stale mark. */
module EngineResults {
  import opened Common
  import opened EngineTypes
  import opened EngineTables
  import opened EngineTransactions
  import opened EngineMachine
  import opened EngineOwnership
  import opened EngineDelivery
  import opened EngineFencing

  predicate Records<B>(e: Entry<B>, id: EventId) { e.ResultRecorded? && e.event.id == id }

  /** The row still is the event that was recorded; only an applied row drops its payload. */
  predicate Carries(row: InboxRow, e: NewEvent) {
    && row.aggregate == e.aggregate && row.kind == e.kind && row.source == e.source
    && (row.payload == Some(e.payload) || row.state.Applied?)
  }

  predicate WellFormed(e: NewEvent) {
    e.id.ResultOf? && e.payload.Result? && e.payload.result.job == e.id.job
      && e.payload.result.generation == e.id.generation
  }

  // -------------------------------------------------------- rows keep their content

  predicate KeepsContent(a: InboxRow, b: InboxRow) {
    && SameEvent(a, b) && (b.payload == a.payload || b.state.Applied?) && (a.state.Applied? ==> b.state.Applied?)
  }

  lemma MarkKeepsContent(before: map<EventId, InboxRow>, mid: map<EventId, InboxRow>, id: EventId, ref: string,
                         nextAt: int, now: int)
    requires PassiveBut(before, mid, None) && id in before && id in mid
    ensures KeepsContent(before[id], MarkApplied(mid, id, now)[id])
    ensures KeepsContent(before[id], MarkWaiting(mid, id, ref, nextAt, now)[id])
  {
    assert Passive(before[id], mid[id]);
  }

  lemma CommitKeepsContent<B>(db: Db, input: ApplyInput<B>, reply: Reply<B>, recheckAt: int)
    requires reply.Decided? && input.id in db.inbox
    ensures input.id in CommitReply(db, input, reply, recheckAt).inbox
    ensures KeepsContent(db.inbox[input.id], CommitReply(db, input, reply, recheckAt).inbox[input.id])
  {
    var now := input.now;
    InsertAllOnlyInserts(db, reply.recorded, now);
    var inserted := InsertInboxAll(db, reply.recorded, now).inbox;
    var current := FindAggregate(HandlerWrites(db, reply.recorded, reply.cleared, now), input.row.aggregate);
    var refs := CommitRefs(input.row.aggregate, current, reply.effects, input.id);
    WakePassive(db.inbox, inserted, reply.recorded, refs, now);
    MarkKeepsContent(db.inbox, Wake(inserted, refs, now), input.id,
                     if reply.verdict.Park? then reply.verdict.ref else "",
                     recheckAt, now);
    assert CommitInbox(db, input, reply, recheckAt) == CommitReply(db, input, reply, recheckAt).inbox;
  }

  lemma RowKeepsContent<B>(c: Config<B>, s: System<B>, step: Step<B>, id: EventId)
    requires Enabled(c, s, step) && id in s.db.inbox && id in Next(c, s, step).db.inbox
    ensures KeepsContent(s.db.inbox[id], Next(c, s, step).db.inbox[id])
  {
    if Acting(s, step) == Some(id) {
      OwnRowKeepsContent(c, s, step.worker, step.work);
    } else {
      StepIsPassive(c, s, step);
      assert Passive(s.db.inbox[id], Next(c, s, step).db.inbox[id]);
    }
  }

  lemma OwnRowKeepsContent<B>(c: Config<B>, s: System<B>, w: nat, k: WorkStep)
    requires WorkEnabled(c, s, w, k) && WorkerOf(s, w).Active() && WorkerOf(s, w).id in s.db.inbox
    ensures WorkerOf(s, w).id in WorkNext(c, s, w, k).db.inbox
    ensures KeepsContent(s.db.inbox[WorkerOf(s, w).id], WorkNext(c, s, w, k).db.inbox[WorkerOf(s, w).id])
  {
    if k.Apply? {
      var input := InputOf(s, w, k.at, k.oracle);
      if c.handler(input).Decided? { CommitKeepsContent(s.db, input, c.handler(input), k.recheckAt); }
    } else {
      var id := WorkerOf(s, w).id;
      if k.FailUnhandled? || k.MarkRefused? { FailedKeepsContent(s.db, id, k.at); }
      if k.ScheduleRetry? { RetryKeepsContent(s.db, id, k.nextAt, k.at); }
      if k.MarkPoisonedEvent? { PoisonedKeepsContent(s.db, id, k.at); }
    }
  }

  lemma FailedKeepsContent(db: Db, id: EventId, now: int)
    requires id in db.inbox
    ensures id in MarkFailed(db, id, now).inbox && KeepsContent(db.inbox[id], MarkFailed(db, id, now).inbox[id])
  {
  }

  lemma RetryKeepsContent(db: Db, id: EventId, nextAt: int, now: int)
    requires id in db.inbox
    ensures id in MarkRetry(db, id, nextAt, now).inbox
            && KeepsContent(db.inbox[id], MarkRetry(db, id, nextAt, now).inbox[id])
  {
  }

  lemma PoisonedKeepsContent(db: Db, id: EventId, now: int)
    requires id in db.inbox
    ensures id in MarkPoisoned(db, id, now).inbox && KeepsContent(db.inbox[id], MarkPoisoned(db, id, now).inbox[id])
  {
  }

  // ------------------------------------------------------------ what a step records

  /** The result entries of one step: new keys, one entry each, stored as they are. */
  ghost predicate RecordsNow<B>(before: map<EventId, InboxRow>, after: map<EventId, InboxRow>, es: seq<Entry<B>>) {
    && (forall i | 0 <= i < |es| && es[i].ResultRecorded? ::
          && WellFormed(es[i].event) && es[i].event.id !in before
          && es[i].event.id in after && Carries(after[es[i].event.id], es[i].event))
    && (forall i, k | 0 <= i < k < |es| && es[i].ResultRecorded? && es[k].ResultRecorded? ::
          es[i].event.id != es[k].event.id)
  }

  /** A result without the stale mark is the end of its job. */
  ghost predicate SoundNow<B>(before: map<string, JobRow>, after: map<string, JobRow>, es: seq<Entry<B>>) {
    forall i | 0 <= i < |es| && es[i].ResultRecorded? :: SoundResult(after, es[i].event) && es[i].event.id.job in before
  }

  predicate SoundResult(jobs: map<string, JobRow>, e: NewEvent) {
    && WellFormed(e) && e.id.job in jobs && e.id.generation <= jobs[e.id.job].generation
    && (!e.payload.result.stale ==>
          jobs[e.id.job].state.Terminal() && jobs[e.id.job].generation == e.id.generation)
  }

  lemma {:induction false} InsertAllStores(db: Db, es: seq<NewEvent>, now: int, k: nat)
    requires k < |es| && es[k].id !in db.inbox
    requires forall i, m | 0 <= i < m < |es| :: es[i].id != es[m].id
    ensures es[k].id in InsertInboxAll(db, es, now).inbox
    ensures Carries(InsertInboxAll(db, es, now).inbox[es[k].id], es[k])
  {
    var rest, last := es[..|es| - 1], es[|es| - 1];
    var mid := InsertInboxAll(db, rest, now);
    if k < |rest| {
      InsertAllStores(db, rest, now, k);
      InsertElsewhere(mid, last, now, es[k].id);
    } else {
      InsertAllOnlyInserts(db, rest, now);
      assert es[k].id !in mid.inbox;
    }
  }

  lemma InsertElsewhere(db: Db, e: NewEvent, now: int, id: EventId)
    requires id in db.inbox && e.id != id
    ensures id in InsertInbox(db, e, now).inbox && InsertInbox(db, e, now).inbox[id] == db.inbox[id]
  {
  }

  function SweepEvent(db: Db, j: string): NewEvent
    requires j in db.jobs
  {
    ResultEvent(j, db.jobs[j], db.jobs[j].generation, false, JobOutcome.Cancelled)
  }

  lemma SweepStores(db: Db, order: seq<string>, at: int, j: string)
    requires SweepOrder(db.jobs, order, at) && j in order && SweepEvent(db, j).id !in db.inbox
    ensures SweepEvent(db, j).id in Sweep(db, order, at).inbox
    ensures Carries(Sweep(db, order, at).inbox[SweepEvent(db, j).id], SweepEvent(db, j))
  {
    var k :| 0 <= k < |order| && order[k] == j;
    var es := SweepEvents(db.jobs, order);
    assert es[k] == SweepEvent(db, j);
    InsertAllStores(db, es, at, k);
  }

  ghost predicate RecordsWithin<B>(es: seq<Entry<B>>, db: Db, order: seq<string>) {
    && (forall i | 0 <= i < |es| && es[i].ResultRecorded? ::
          && es[i].event.id.ResultOf? && es[i].event.id.job in order && es[i].event.id.job in db.jobs
          && es[i].event == SweepEvent(db, es[i].event.id.job) && es[i].event.id !in db.inbox)
    && (forall i, k | 0 <= i < k < |es| && es[i].ResultRecorded? && es[k].ResultRecorded? ::
          es[i].event.id != es[k].event.id)
  }

  lemma RecordsWithinGrows<B>(es: seq<Entry<B>>, db: Db, order: seq<string>, id: string)
    requires RecordsWithin(es, db, order) && id !in order && id in db.jobs
    ensures RecordsWithin(es + EndEntries<B>(db, id, db.jobs[id], true, false, Some(JobOutcome.Cancelled)), db,
                          order + [id])
  {
    var last := EndEntries<B>(db, id, db.jobs[id], true, false, Some(JobOutcome.Cancelled));
    var all := es + last;
    assert id in order + [id];
    forall i | 0 <= i < |all| && all[i].ResultRecorded?
      ensures all[i].event.id.ResultOf? && all[i].event.id.job in order + [id] && all[i].event.id.job in db.jobs
      ensures all[i].event == SweepEvent(db, all[i].event.id.job) && all[i].event.id !in db.inbox
    {
      if i < |es| { assert all[i] == es[i]; } else { assert all[i] == last[i - |es|]; }
    }
    forall i, k | 0 <= i < k < |all| && all[i].ResultRecorded? && all[k].ResultRecorded?
      ensures all[i].event.id != all[k].event.id
    {
      if k < |es| {
        assert all[i] == es[i] && all[k] == es[k];
      } else if i < |es| {
        assert all[i] == es[i] && all[k] == last[k - |es|];
      } else {
        assert all[i] == last[i - |es|] && all[k] == last[k - |es|];
      }
    }
  }

  lemma {:induction false} SweepRecords<B>(db: Db, order: seq<string>)
    requires NoDuplicates(order) && forall id | id in order :: id in db.jobs
    ensures RecordsWithin(SweepEntries<B>(db, order), db, order)
  {
    if order != [] {
      var front, id := order[..|order| - 1], order[|order| - 1];
      SweepRecords<B>(db, front);
      RecordsWithinGrows(SweepEntries<B>(db, front), db, front, id);
      assert order == front + [id];
    }
  }

  lemma SweepRecordsNow<B>(db: Db, order: seq<string>, at: int)
    requires SweepOrder(db.jobs, order, at)
    ensures RecordsNow(db.inbox, Sweep(db, order, at).inbox, SweepEntries<B>(db, order))
    ensures SoundNow(db.jobs, Sweep(db, order, at).jobs, SweepEntries<B>(db, order))
  {
    SweepRecords<B>(db, order);
    var es := SweepEntries<B>(db, order);
    assert Sweep(db, order, at).jobs == SweepJobs(db.jobs, at);
    forall i | 0 <= i < |es| && es[i].ResultRecorded?
      ensures WellFormed(es[i].event) && es[i].event.id !in db.inbox && es[i].event.id in Sweep(db, order, at).inbox
      ensures Carries(Sweep(db, order, at).inbox[es[i].event.id], es[i].event)
      ensures SoundResult(SweepJobs(db.jobs, at), es[i].event) && es[i].event.id.job in db.jobs
    {
      var j := es[i].event.id.job;
      SweepStores(db, order, at, j);
      assert LapsedCancelled(db.jobs[j], at);
    }
  }

  /** The holder's job is still its job, at least as new as it was claimed. */
  predicate HolderKnown(jobs: map<string, JobRow>, h: Holder) {
    h.job in jobs ==> h.row.generation <= jobs[h.job].generation
  }

  lemma RecordInbox(db: Db, job: string, row: JobRow, f: Finish, now: int, backoff: int -> int)
    ensures var outcome := FinishOutcomeOf(db.jobs, job, row.generation, f);
            var reported := Reported(outcome, f);
            RecordFinish(db, job, row, f, now, backoff).inbox
            == if reported.None? then db.inbox
               else InsertInbox(db, ResultEvent(job, row, row.generation, !outcome.Finished?, reported.value),
                                now).inbox
  {
  }

  lemma CompletionRecords<B>(db: Db, holders: map<nat, Holder>, x: ExecStep, backoff: int -> int)
    requires ExecEnabled(db, holders, x) && x.RecordCompletion?
    ensures RecordsNow(db.inbox, ExecDb(db, holders, x, backoff).inbox, ResultEntries<B>(db, holders, x))
  {
    var Holder(job, row, Some(f)) := holders[x.holder];
    RecordInbox(db, job, row, f, x.at, backoff);
  }

  lemma CompletionSound<B>(db: Db, holders: map<nat, Holder>, x: ExecStep, backoff: int -> int)
    requires ExecEnabled(db, holders, x) && x.RecordCompletion? && HolderKnown(db.jobs, holders[x.holder])
    ensures SoundNow(db.jobs, ExecDb(db, holders, x, backoff).jobs, ResultEntries<B>(db, holders, x))
  {
    var Holder(job, row, Some(f)) := holders[x.holder];
    RecordJobs(db, job, row, f, x.at, backoff);
  }

  ghost predicate NoResults<B>(es: seq<Entry<B>>) { forall i | 0 <= i < |es| :: !es[i].ResultRecorded? }

  /** Entries without results may come first. */
  lemma RecordsNowAfter<B>(before: map<EventId, InboxRow>, after: map<EventId, InboxRow>, first: seq<Entry<B>>,
                           es: seq<Entry<B>>)
    requires NoResults(first) && RecordsNow(before, after, es)
    ensures RecordsNow(before, after, first + es)
  {
    ResultsAfter(first, es);
  }

  lemma SoundNowAfter<B>(before: map<string, JobRow>, after: map<string, JobRow>, first: seq<Entry<B>>,
                         es: seq<Entry<B>>)
    requires NoResults(first) && SoundNow(before, after, es)
    ensures SoundNow(before, after, first + es)
  {
    ResultsAfter(first, es);
  }

  lemma ResultsAfter<B>(first: seq<Entry<B>>, es: seq<Entry<B>>)
    requires NoResults(first)
    ensures var all := first + es;
            forall i | 0 <= i < |all| && all[i].ResultRecorded? :: i >= |first| && all[i] == es[i - |first|]
  {
    var all := first + es;
    forall i | 0 <= i < |first| ensures !all[i].ResultRecorded? { assert all[i] == first[i]; }
  }

  lemma StepRecords<B>(c: Config<B>, s: System<B>, step: Step<B>)
    requires Enabled(c, s, step)
    ensures RecordsNow(s.db.inbox, Next(c, s, step).db.inbox, NewEntries(c, s, step))
  {
    if step.Exec? {
      var x := step.exec;
      if x.SweepCancelled? { SweepRecordsNow<B>(s.db, x.order, x.at); }
      if x.RecordCompletion? { CompletionRecords<B>(s.db, s.holders, x, c.poisonBackoff); }
      RecordsNowAfter(s.db.inbox, Next(c, s, step).db.inbox, LeaseEntries<B>(s.db, s.holders, x),
                      ResultEntries<B>(s.db, s.holders, x));
    }
  }

  lemma StepSound<B>(c: Config<B>, s: System<B>, step: Step<B>)
    requires Enabled(c, s, step)
    requires step.Exec? && step.exec.RecordCompletion? ==> HolderKnown(s.db.jobs, s.holders[step.exec.holder])
    ensures SoundNow(s.db.jobs, Next(c, s, step).db.jobs, NewEntries(c, s, step))
  {
    if step.Exec? {
      var x := step.exec;
      if x.SweepCancelled? { SweepRecordsNow<B>(s.db, x.order, x.at); }
      if x.RecordCompletion? { CompletionSound<B>(s.db, s.holders, x, c.poisonBackoff); }
      SoundNowAfter(s.db.jobs, Next(c, s, step).db.jobs, LeaseEntries<B>(s.db, s.holders, x),
                    ResultEntries<B>(s.db, s.holders, x));
    }
  }

  // -------------------------------------------------------------------- invariants

  /** A recorded result that was not purged since is stored as recorded. */
  ghost predicate RecordedIsStored<B>(log: seq<Entry<B>>, inbox: map<EventId, InboxRow>) {
    forall i, id | 0 <= i < |log| && Records(log[i], id) ::
      (exists k | i < k < |log| :: Purges(log[k], id)) || (id in inbox && Carries(inbox[id], log[i].event))
  }

  /** Between two recordings of one result lies a purge of its row. */
  ghost predicate RecordedOnce<B>(log: seq<Entry<B>>) {
    forall i, j, id | 0 <= i < j < |log| && Records(log[i], id) && Records(log[j], id) ::
      exists k | i < k < j :: Purges(log[k], id)
  }

  predicate ResultFor<B>(e: Entry<B>, j: string) { e.ResultRecorded? && e.event.id.ResultOf? && e.event.id.job == j }

  ghost predicate ResultsSound<B>(log: seq<Entry<B>>, jobs: map<string, JobRow>, j: string) {
    forall i | 0 <= i < |log| && ResultFor(log[i], j) :: SoundResult(jobs, log[i].event)
  }

  lemma StoredResultKept<B>(c: Config<B>, s: System<B>, step: Step<B>, id: EventId, e: NewEvent)
    requires Enabled(c, s, step) && id in s.db.inbox && Carries(s.db.inbox[id], e)
    ensures var t, es := Next(c, s, step), NewEntries(c, s, step);
            (id in t.db.inbox && Carries(t.db.inbox[id], e)) || (id !in t.db.inbox && |es| == 1 && Purges(es[0], id))
  {
    if id in Next(c, s, step).db.inbox {
      RowKeepsContent(c, s, step, id);
    } else if step.Work? {
      WorkPassive(c, s, step.worker, step.work);
    } else {
      OtherEntries(c, s, step);
    }
  }

  /** What a step must do to stored results. */
  ghost predicate StoresNow<B>(before: map<EventId, InboxRow>, after: map<EventId, InboxRow>, es: seq<Entry<B>>) {
    forall id, e | id in before && Carries(before[id], e) ::
      (id in after && Carries(after[id], e)) || (|es| == 1 && Purges(es[0], id))
  }

  lemma RecordedIsStoredGrows<B>(log: seq<Entry<B>>, es: seq<Entry<B>>, before: map<EventId, InboxRow>,
                                 after: map<EventId, InboxRow>)
    requires RecordedIsStored(log, before) && RecordsNow(before, after, es) && StoresNow(before, after, es)
    ensures RecordedIsStored(log + es, after)
  {
    var all := log + es;
    forall i, id | 0 <= i < |all| && Records(all[i], id)
      ensures (exists k | i < k < |all| :: Purges(all[k], id)) || (id in after && Carries(after[id], all[i].event))
    {
      if i < |log| {
        assert all[i] == log[i];
        if k :| i < k < |log| && Purges(log[k], id) {
          assert all[k] == log[k];
        } else {
          assert id in before && Carries(before[id], log[i].event);
          if |es| == 1 && Purges(es[0], id) { assert all[|log|] == es[0]; }
        }
      } else {
        assert all[i] == es[i - |log|];
      }
    }
  }

  lemma RecordedOnceGrows<B>(log: seq<Entry<B>>, es: seq<Entry<B>>, before: map<EventId, InboxRow>,
                             after: map<EventId, InboxRow>)
    requires RecordedOnce(log) && RecordedIsStored(log, before) && RecordsNow(before, after, es)
    ensures RecordedOnce(log + es)
  {
    var all := log + es;
    forall i, j, id | 0 <= i < j < |all| && Records(all[i], id) && Records(all[j], id)
      ensures exists k | i < k < j :: Purges(all[k], id)
    {
      if j < |log| {
        var k :| i < k < j && Purges(log[k], id);
        assert all[k] == log[k];
      } else if i < |log| {
        assert all[j] == es[j - |log|] && Records(log[i], id);
        var k :| i < k < |log| && Purges(log[k], id);
        assert all[k] == log[k];
      }
    }
  }

  lemma StepStores<B>(c: Config<B>, s: System<B>, step: Step<B>)
    requires Enabled(c, s, step)
    ensures StoresNow(s.db.inbox, Next(c, s, step).db.inbox, NewEntries(c, s, step))
  {
    forall id, e | id in s.db.inbox && Carries(s.db.inbox[id], e)
      ensures var t, es := Next(c, s, step), NewEntries(c, s, step);
              (id in t.db.inbox && Carries(t.db.inbox[id], e)) || (|es| == 1 && Purges(es[0], id))
    {
      StoredResultKept(c, s, step, id, e);
    }
  }

  lemma SoundStays(before: map<string, JobRow>, after: map<string, JobRow>, e: NewEvent)
    requires SoundResult(before, e) && JobsMove(before, after) && e.id.job in after
    ensures SoundResult(after, e)
  {
    assert RowMoves(before[e.id.job], after[e.id.job]);
  }

  lemma ResultsSoundKept<B>(c: Config<B>, s: System<B>, step: Step<B>, j: string)
    requires ResultsSound(s.log, s.db.jobs, j) && Fenced(s.db.jobs, s.holders, j) && Enabled(c, s, step)
    requires j in s.db.jobs ==> j in Next(c, s, step).db.jobs
    ensures ResultsSound(s.log + NewEntries(c, s, step), Next(c, s, step).db.jobs, j)
  {
    var t, es := Next(c, s, step), NewEntries(c, s, step);
    StepMoves(c, s, step);
    forall i | 0 <= i < |es| && ResultFor(es[i], j) ensures SoundResult(t.db.jobs, es[i].event) {
      NewResultSound(c, s, step, j, i);
    }
    ResultsSoundGrows(s.log, es, s.db.jobs, t.db.jobs, j);
  }

  lemma ResultsSoundGrows<B>(log: seq<Entry<B>>, es: seq<Entry<B>>, before: map<string, JobRow>,
                             after: map<string, JobRow>, j: string)
    requires ResultsSound(log, before, j) && ResultsSound(es, after, j) && JobsMove(before, after)
    requires j in before ==> j in after
    ensures ResultsSound(log + es, after, j)
  {
    var all := log + es;
    forall i | 0 <= i < |all| && ResultFor(all[i], j) ensures SoundResult(after, all[i].event) {
      if i < |log| {
        assert all[i] == log[i];
        SoundStays(before, after, log[i].event);
      } else {
        assert all[i] == es[i - |log|];
      }
    }
  }

  lemma NewResultSound<B>(c: Config<B>, s: System<B>, step: Step<B>, j: string, i: nat)
    requires Fenced(s.db.jobs, s.holders, j) && Enabled(c, s, step)
    requires i < |NewEntries(c, s, step)| && ResultFor(NewEntries(c, s, step)[i], j)
    ensures SoundResult(Next(c, s, step).db.jobs, NewEntries(c, s, step)[i].event)
  {
    if step.Exec? && step.exec.RecordCompletion? {
      assert s.holders[step.exec.holder].job == j;
    }
    StepSound(c, s, step);
  }

  // ----------------------------------------------------------- where results come from

  /** Every result row of the inbox is a recorded one. */
  ghost predicate StoredWasRecorded<B>(log: seq<Entry<B>>, inbox: map<EventId, InboxRow>) {
    forall id | id in inbox && id.ResultOf? ::
      exists i | 0 <= i < |log| :: Records(log[i], id) && Carries(inbox[id], log[i].event)
  }

  /** A new result row is recorded by the step that stores it. */
  ghost predicate NewIsRecorded<B>(before: map<EventId, InboxRow>, after: map<EventId, InboxRow>, es: seq<Entry<B>>) {
    forall id | id in after && id !in before && id.ResultOf? :: exists i | 0 <= i < |es| :: Records(es[i], id)
  }

  lemma {:induction false} SweepEntriesCover<B>(db: Db, order: seq<string>, j: string)
    requires (forall id | id in order :: id in db.jobs) && j in order && SweepEvent(db, j).id !in db.inbox
    ensures exists i | 0 <= i < |SweepEntries<B>(db, order)| ::
            Records(SweepEntries<B>(db, order)[i], SweepEvent(db, j).id)
  {
    var front, id := order[..|order| - 1], order[|order| - 1];
    var es, last := SweepEntries<B>(db, front),
        EndEntries<B>(db, id, db.jobs[id], true, false, Some(JobOutcome.Cancelled));
    assert SweepEntries<B>(db, order) == es + last;
    if j == id {
      assert (es + last)[|es| + 1] == last[1];
    } else {
      SweepEntriesCover<B>(db, front, j);
      var i :| 0 <= i < |es| && Records(es[i], SweepEvent(db, j).id);
      assert (es + last)[i] == es[i];
    }
  }

  /** A row the sweep adds is the result of a swept job. */
  lemma SweptRow(db: Db, order: seq<string>, at: int, id: EventId) returns (j: string)
    requires (forall k | k in order :: k in db.jobs) && id in Sweep(db, order, at).inbox && id !in db.inbox
    ensures j in order && SweepEvent(db, j).id == id
  {
    var events := SweepEvents(db.jobs, order);
    InsertAllOnlyInserts(db, events, at);
    var e :| e in events && e.id == id;
    j := SweptJob(db, order, e);
  }

  lemma SweptJob(db: Db, order: seq<string>, e: NewEvent) returns (j: string)
    requires (forall k | k in order :: k in db.jobs) && e in SweepEvents(db.jobs, order)
    ensures j in order && SweepEvent(db, j) == e
  {
    var k :| 0 <= k < |order| && SweepEvents(db.jobs, order)[k] == e;
    j := order[k];
  }

  lemma SweepNewIsRecorded<B>(db: Db, order: seq<string>, at: int)
    requires SweepOrder(db.jobs, order, at)
    ensures NewIsRecorded(db.inbox, Sweep(db, order, at).inbox, SweepEntries<B>(db, order))
  {
    forall id | id in Sweep(db, order, at).inbox && id !in db.inbox && id.ResultOf?
      ensures exists i | 0 <= i < |SweepEntries<B>(db, order)| :: Records(SweepEntries<B>(db, order)[i], id)
    {
      var j := SweptRow(db, order, at, id);
      SweepEntriesCover<B>(db, order, j);
    }
  }

  lemma CompletionNewIsRecorded<B>(db: Db, holders: map<nat, Holder>, x: ExecStep, backoff: int -> int)
    requires ExecEnabled(db, holders, x) && x.RecordCompletion?
    ensures NewIsRecorded(db.inbox, ExecDb(db, holders, x, backoff).inbox, ResultEntries<B>(db, holders, x))
  {
    var Holder(job, row, Some(f)) := holders[x.holder];
    RecordInbox(db, job, row, f, x.at, backoff);
    var outcome := FinishOutcomeOf(db.jobs, job, row.generation, f);
    var es := ResultEntries<B>(db, holders, x);
    if Reported(outcome, f).Some? && ResultOf(job, row.generation) !in db.inbox {
      assert Records(es[|es| - 1], ResultOf(job, row.generation));
    }
  }

  lemma NewIsRecordedAfter<B>(before: map<EventId, InboxRow>, after: map<EventId, InboxRow>, first: seq<Entry<B>>,
                              es: seq<Entry<B>>)
    requires NewIsRecorded(before, after, es)
    ensures NewIsRecorded(before, after, first + es)
  {
    forall id | id in after && id !in before && id.ResultOf?
      ensures exists i | 0 <= i < |first + es| :: Records((first + es)[i], id)
    {
      var i :| 0 <= i < |es| && Records(es[i], id);
      assert (first + es)[|first| + i] == es[i];
    }
  }

  /** Handlers and producers record named events only. */
  lemma CommitRecordsNamed<B>(db: Db, input: ApplyInput<B>, reply: Reply<B>, recheckAt: int)
    requires reply.Decided? && forall e | e in reply.recorded :: ProducerEvent(e)
    ensures forall id | id in CommitReply(db, input, reply, recheckAt).inbox && id !in db.inbox :: id.Named?
  {
    InsertAllOnlyInserts(db, reply.recorded, input.now);
    var inserted := InsertInboxAll(db, reply.recorded, input.now).inbox;
    assert CommitInbox(db, input, reply, recheckAt) == CommitReply(db, input, reply, recheckAt).inbox;
    assert CommitReply(db, input, reply, recheckAt).inbox.Keys == inserted.Keys;
    forall id | id in inserted && id !in db.inbox ensures id.Named? {
      var e :| e in reply.recorded && e.id == id;
      assert ProducerEvent(e);
    }
  }

  lemma ExecNewIsRecorded<B>(db: Db, holders: map<nat, Holder>, x: ExecStep, backoff: int -> int)
    requires ExecEnabled(db, holders, x)
    ensures NewIsRecorded(db.inbox, ExecDb(db, holders, x, backoff).inbox, ExecLog<B>(db, holders, x))
  {
    if x.SweepCancelled? { SweepNewIsRecorded<B>(db, x.order, x.at); }
    if x.RecordCompletion? { CompletionNewIsRecorded<B>(db, holders, x, backoff); }
    NewIsRecordedAfter(db.inbox, ExecDb(db, holders, x, backoff).inbox, LeaseEntries<B>(db, holders, x),
                       ResultEntries<B>(db, holders, x));
  }

  /** A statement of a worker or a submission stores named events only; timers, housekeeping
      and the publisher store none. */
  lemma OthersStoreNamed<B>(c: Config<B>, s: System<B>, step: Step<B>)
    requires Enabled(c, s, step) && !step.Exec?
    ensures forall id | id in Next(c, s, step).db.inbox && id !in s.db.inbox :: id.Named?
  {
    match step
    case Work(w, k) => WorkStoresNamed(c, s, w, k);
    case Submit(u) => SubmitStoresNamed(s.db, s.submitters, u);
    case Runtime(r) => RuntimeStoresNothing(s.db, r);
    case _ =>
  }

  lemma RuntimeStoresNothing(db: Db, r: RuntimeStep)
    ensures RuntimeDb(db, r).inbox.Keys <= db.inbox.Keys
  {
  }

  lemma StepNewIsRecorded<B>(c: Config<B>, s: System<B>, step: Step<B>)
    requires Enabled(c, s, step)
    ensures NewIsRecorded(s.db.inbox, Next(c, s, step).db.inbox, NewEntries(c, s, step))
  {
    if step.Exec? {
      ExecNewIsRecorded<B>(s.db, s.holders, step.exec, c.poisonBackoff);
    } else {
      OthersStoreNamed(c, s, step);
    }
  }

  lemma SubmitStoresNamed(db: Db, submitters: map<nat, Submitter>, u: SubmitStep)
    requires SubmitEnabled(submitters, u)
    ensures forall id | id in SubmitDb(db, submitters, u).inbox && id !in db.inbox :: id.Named?
  {
  }

  lemma WorkStoresNamed<B>(c: Config<B>, s: System<B>, w: nat, k: WorkStep)
    requires WorkEnabled(c, s, w, k)
    ensures forall id | id in WorkNext(c, s, w, k).db.inbox && id !in s.db.inbox :: id.Named?
  {
    if k.Apply? {
      var input := InputOf(s, w, k.at, k.oracle);
      if c.handler(input).Decided? { CommitRecordsNamed(s.db, input, c.handler(input), k.recheckAt); }
    }
  }

  lemma StoredWasRecordedGrows<B>(log: seq<Entry<B>>, es: seq<Entry<B>>, before: map<EventId, InboxRow>,
                                  after: map<EventId, InboxRow>)
    requires StoredWasRecorded(log, before) && RecordsNow(before, after, es) && NewIsRecorded(before, after, es)
    requires forall id | id in before && id in after :: KeepsContent(before[id], after[id])
    ensures StoredWasRecorded(log + es, after)
  {
    var all := log + es;
    forall id | id in after && id.ResultOf?
      ensures exists i | 0 <= i < |all| :: Records(all[i], id) && Carries(after[id], all[i].event)
    {
      if id in before {
        var i :| 0 <= i < |log| && Records(log[i], id) && Carries(before[id], log[i].event);
        assert all[i] == log[i] && KeepsContent(before[id], after[id]);
      } else {
        var i :| 0 <= i < |es| && Records(es[i], id);
        assert all[|log| + i] == es[i];
      }
    }
  }

  /** What is on record under a holder's own generation and marked stale is the outcome
      that very holder reached. */
  ghost predicate StaleIsOwn<B>(log: seq<Entry<B>>, holders: map<nat, Holder>, j: string) {
    forall h, i | h in holders && holders[h].job == j && 0 <= i < |log|
                  && Records(log[i], ResultOf(j, holders[h].row.generation))
                  && log[i].event.payload.Result? && log[i].event.payload.result.stale ::
      OwnOutcome(holders[h], log[i].event)
  }

  predicate OwnOutcome(h: Holder, e: NewEvent) {
    && h.finish.Some? && TerminalOutcome(h.finish.value).Some?
    && e == ResultEvent(h.job, h.row, h.row.generation, true, TerminalOutcome(h.finish.value).value)
  }

  /** The stale results of one step come from the holder that completes. */
  lemma StepStaleIsOwn<B>(c: Config<B>, s: System<B>, step: Step<B>, i: nat)
    requires Enabled(c, s, step) && i < |NewEntries(c, s, step)|
    requires var e := NewEntries(c, s, step)[i];
             e.ResultRecorded? && e.event.payload.Result? && e.event.payload.result.stale
    ensures step.Exec? && step.exec.RecordCompletion?
    ensures OwnOutcome(s.holders[step.exec.holder], NewEntries(c, s, step)[i].event)
  {
    var x := step.exec;
    if x.SweepCancelled? { SweepRecords<B>(s.db, x.order); }
  }

  /** The holder was there, and what it will record does not change. */
  predicate SameHolder(before: map<nat, Holder>, after: map<nat, Holder>, h: nat) {
    && h in before && h in after && before[h].job == after[h].job && before[h].row == after[h].row
    && (before[h].finish.Some? ==> after[h].finish == before[h].finish)
  }

  /** Who holds after a step of the executor: who held before, or the new claim. */
  ghost predicate Moved(jobs: map<string, JobRow>, before: map<nat, Holder>, after: map<nat, Holder>) {
    forall h | h in after ::
      || SameHolder(before, after, h)
      || (h !in before && after[h].job in jobs && after[h].row.generation == jobs[after[h].job].generation + 1)
  }

  lemma ExecHoldersMove(db: Db, holders: map<nat, Holder>, x: ExecStep)
    requires ExecEnabled(db, holders, x)
    ensures Moved(db.jobs, holders, ExecHolders(db, holders, x))
  {
  }

  lemma HoldersMove<B>(c: Config<B>, s: System<B>, step: Step<B>)
    requires Enabled(c, s, step)
    ensures Moved(s.db.jobs, s.holders, Next(c, s, step).holders)
  {
    if step.Exec? { ExecHoldersMove(s.db, s.holders, step.exec); }
    if step.Work? { WorkLeavesOthers(c, s, step.worker, step.work); }
  }

  lemma StaleIsOwnGrows<B>(log: seq<Entry<B>>, es: seq<Entry<B>>, before: map<nat, Holder>, after: map<nat, Holder>,
                           j: string)
    requires StaleIsOwn(log, before, j) && StaleIsOwn(es, after, j)
    requires forall h | h in after && after[h].job == j ::
               || SameHolder(before, after, h)
               || forall i | 0 <= i < |log| :: !Records(log[i], ResultOf(j, after[h].row.generation))
    ensures StaleIsOwn(log + es, after, j)
  {
    var all := log + es;
    forall h, i | h in after && after[h].job == j && 0 <= i < |all|
                  && Records(all[i], ResultOf(j, after[h].row.generation))
                  && all[i].event.payload.Result? && all[i].event.payload.result.stale
      ensures OwnOutcome(after[h], all[i].event)
    {
      if i < |log| {
        assert all[i] == log[i];
        assert OwnOutcome(before[h], log[i].event);
      } else {
        assert all[i] == es[i - |log|];
      }
    }
  }

  lemma StaleIsOwnKept<B>(c: Config<B>, s: System<B>, step: Step<B>, j: string)
    requires Enabled(c, s, step) && Fenced(s.db.jobs, s.holders, j) && ResultsSound(s.log, s.db.jobs, j)
    requires StaleIsOwn(s.log, s.holders, j)
    ensures StaleIsOwn(s.log + NewEntries(c, s, step), Next(c, s, step).holders, j)
  {
    var t, es := Next(c, s, step), NewEntries(c, s, step);
    forall h, i | h in t.holders && t.holders[h].job == j && 0 <= i < |es|
                  && Records(es[i], ResultOf(j, t.holders[h].row.generation))
                  && es[i].event.payload.Result? && es[i].event.payload.result.stale
      ensures OwnOutcome(t.holders[h], es[i].event)
    {
      StepStaleIsOwn(c, s, step, i);
      assert h in s.holders && t.holders[h] == s.holders[h];
    }
    HoldersMove(c, s, step);
    forall h | h in t.holders && t.holders[h].job == j
      ensures || SameHolder(s.holders, t.holders, h)
              || forall i | 0 <= i < |s.log| :: !Records(s.log[i], ResultOf(j, t.holders[h].row.generation))
    {
      if h !in s.holders {
        forall i | 0 <= i < |s.log| ensures !Records(s.log[i], ResultOf(j, t.holders[h].row.generation)) {
          if ResultFor(s.log[i], j) { assert SoundResult(s.db.jobs, s.log[i].event); }
        }
      }
    }
    StaleIsOwnGrows(s.log, es, s.holders, t.holders, j);
  }
}
