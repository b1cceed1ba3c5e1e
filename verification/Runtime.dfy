/** The engine handle and startup (crates/engine/src/runtime.rs). */
module EngineRuntime {
  import opened EngineTypes
  import opened EngineTables
  import opened EngineMachine
  import opened EngineWorker

  // ------------------------------------------------------------- submissions

  datatype SubmitOutcome = Inserted | Duplicate(state: InboxState, ackSent: bool, rearmed: bool)

  /** The statements of one submission that nothing interrupts. */
  function SubmissionOf(db: Db, k: nat, e: NewEvent, now: int, room: bool): seq<SubmitStep> {
    [InsertEvent(k, e, now)]
    + if e.id !in db.inbox then []
      else [ReadKnown(k)] + (if db.inbox[e.id].state.Failed? then [RearmKnown(k, now)] else []) + [AnswerKnown(k, room)]
  }

  /** From `s` to `t` by the submit statements `us`, each enabled in its turn. */
  ghost predicate Submits<B>(c: Config<B>, s: System<B>, us: seq<SubmitStep>, t: System<B>)
    decreases |us|
  {
    if us == [] then t == s
    else Enabled(c, s, Step.Submit(us[0])) && Submits(c, Next(c, s, Step.Submit(us[0])), us[1..], t)
  }

  lemma SubmitsFirst<B>(c: Config<B>, s: System<B>, u: SubmitStep, us: seq<SubmitStep>, t: System<B>)
    requires Enabled(c, s, Step.Submit(u)) && Submits(c, Next(c, s, Step.Submit(u)), us, t)
    ensures Submits(c, s, [u] + us, t)
  {
    assert ([u] + us)[1..] == us;
  }

  /** What a submission that nothing interrupts ACKs. */
  function ReAcked(db: Db, e: NewEvent, room: bool): seq<AckTarget> {
    if room && e.id in db.inbox && AckAgain(db.inbox[e.id]) && e.ack.Some? then [e.ack.value] else []
  }

  /** A submission that nothing interrupts records the event once and leaves no trace but
      its row and its ACK. */
  lemma InOneGo<B>(c: Config<B>, s: System<B>, k: nat, e: NewEvent, now: int, room: bool) returns (t: System<B>)
    requires k !in s.submitters && ProducerEvent(e)
    ensures Submits(c, s, SubmissionOf(s.db, k, e, now, room), t)
    ensures t == s.(db := InsertInbox(s.db, e, now),
                    log := s.log + AckEntries(e.id, ReAcked(s.db, e, room), [true]))
  {
    var s1 := Next(c, s, Step.Submit(InsertEvent(k, e, now)));
    if e.id !in s.db.inbox {
      t := s1;
      SubmitsFirst(c, s, InsertEvent(k, e, now), [], t);
      assert s.log + [] == s.log;
    } else {
      t := KnownInOneGo(c, s1, k, now, room);
      assert s1.submitters - {k} == s.submitters;
      SubmitsFirst(c, s, InsertEvent(k, e, now), SubmissionOf(s.db, k, e, now, room)[1..], t);
    }
  }

  lemma KnownInOneGo<B>(c: Config<B>, s: System<B>, k: nat, now: int, room: bool) returns (t: System<B>)
    requires k in s.submitters && s.submitters[k].Ignored? && s.submitters[k].event.id in s.db.inbox
    ensures var e := s.submitters[k].event;
            && Submits(c, s, SubmissionOf(s.db, k, e, now, room)[1..], t)
            && t == s.(db := InsertInbox(s.db, e, now), submitters := s.submitters - {k},
                       log := s.log + AckEntries(e.id, ReAcked(s.db, e, room), [true]))
  {
    var e := s.submitters[k].event;
    var s1 := Next(c, s, Step.Submit(ReadKnown(k)));
    t := SeenInOneGo(c, s1, k, now, room);
    assert s1.submitters - {k} == s.submitters - {k};
    var rest := (if s.db.inbox[e.id].state.Failed? then [RearmKnown(k, now)] else []) + [AnswerKnown(k, room)];
    assert SubmissionOf(s.db, k, e, now, room)[1..] == [ReadKnown(k)] + rest;
    SubmitsFirst(c, s, ReadKnown(k), rest, t);
  }

  lemma SeenInOneGo<B>(c: Config<B>, s: System<B>, k: nat, now: int, room: bool) returns (t: System<B>)
    requires k in s.submitters && s.submitters[k].Seen? && s.submitters[k].event.id in s.db.inbox
    requires s.submitters[k].failed == s.db.inbox[s.submitters[k].event.id].state.Failed?
    requires s.submitters[k].ackAgain == AckAgain(s.db.inbox[s.submitters[k].event.id])
    ensures var Seen(e, failed, _) := s.submitters[k];
            && Submits(c, s, (if failed then [RearmKnown(k, now)] else []) + [AnswerKnown(k, room)], t)
            && t == s.(db := InsertInbox(s.db, e, now), submitters := s.submitters - {k},
                       log := s.log + AckEntries(e.id, ReAcked(s.db, e, room), [true]))
  {
    var Seen(e, failed, _) := s.submitters[k];
    InsertIsBoth(s.db, e, now);
    var s1 := if failed then Next(c, s, Step.Submit(RearmKnown(k, now))) else s;
    t := Next(c, s1, Step.Submit(AnswerKnown(k, room)));
    AnswerLog<B>(s1.submitters, k, room);
    assert s1.submitters - {k} == s.submitters - {k};
    SubmitsFirst(c, s1, AnswerKnown(k, room), [], t);
    if failed { SubmitsFirst(c, s, RearmKnown(k, now), [AnswerKnown(k, room)], t); }
    var answer := [AnswerKnown(k, room)];
    assert answer + [] == answer && [] + answer == answer;
  }

  lemma AnswerLog<B>(submitters: map<nat, Submitter>, k: nat, room: bool)
    requires SubmitEnabled(submitters, AnswerKnown(k, room))
    ensures var Seen(e, _, ackAgain) := submitters[k];
            var acks := if room && ackAgain && e.ack.Some? then [e.ack.value] else [];
            SubmitLog<B>(submitters, AnswerKnown(k, room)) == AckEntries(e.id, acks, [true])
  {
    var Seen(e, _, ackAgain) := submitters[k];
    if e.ack.Some? { assert SentAcks([e.ack.value], [true]) == [] + [e.ack.value]; }
  }

  /** Record an event once, statement by statement. A duplicate is ACKed again only when its
      row is applied or parked; a failed row is put back to pending. */
  method Submit<B>(db: Database<B>, e: NewEvent, now: int, room: bool, c: Config<B>, ghost s: System<B>, ghost k: nat)
    returns (r: SubmitOutcome, ghost t: System<B>)
    requires s.db == db.tables && k !in s.submitters && ProducerEvent(e)
    modifies db`tables, db`acks
    ensures Submits(c, s, SubmissionOf(s.db, k, e, now, room), t) && t.db == db.tables && t.submitters == s.submitters
    ensures r.Inserted? <==> e.id !in old(db.tables.inbox)
    ensures r.Duplicate? ==> r.state == old(db.tables.inbox)[e.id].state && (r.rearmed <==> r.state.Failed?)
    ensures r.Duplicate? && r.ackSent <==>
              room && e.ack.Some? && e.id in old(db.tables.inbox)
              && (r.state.Applied? || (r.state.Pending? && old(db.tables.inbox)[e.id].waitingRef.Some?))
    ensures db.acks == old(db.acks) + ReAcked(old(db.tables), e, room)
  {
    t := InOneGo(c, s, k, e, now, room);
    InsertIsBoth(db.tables, e, now);
    var known := e.id in db.tables.inbox;
    db.tables := InsertOrIgnore(db.tables, e, now);
    if !known { return Inserted, t; }
    var row := db.tables.inbox[e.id];
    var rearmed := row.state.Failed?;
    if rearmed { db.tables := RearmFailed(db.tables, e.id, now); }
    var sent := AckAgain(row) && e.ack.Some? && room;
    if sent { db.acks := db.acks + [e.ack.value]; }
    r := Duplicate(row.state, sent, rearmed);
  }

  /** Pending events are due again and leases of an earlier process are void. */
  method StartupRecovery<B>(db: Database<B>, now: int)
    modifies db`tables
    ensures db.tables == RuntimeDb(RuntimeDb(old(db.tables), RearmAll(now)), ResetLeases)
  {
    db.tables := db.tables.(inbox := RearmPending(db.tables.inbox, now));
    db.tables := db.tables.(outbox := ResetOutboxLeases(db.tables.outbox));
    db.tables := db.tables.(jobs := ResetJobLeases(db.tables.jobs));
  }

  /** After recovery no work is held back by a dead process: every pending event is
      runnable unless its kind is poisoned, every open message that is due can be claimed,
      and every running job is either claimable again or left to the cancel sweep. */
  lemma RecoveryFrees(db: Db, now: int)
    requires now >= 0
    ensures var after := RuntimeDb(RuntimeDb(db, RearmAll(now)), ResetLeases);
            && (forall id | id in after.inbox && after.inbox[id].state.Pending? ::
                  Runnable(after, id, now) || Blocked(after, after.inbox[id].aggregate, after.inbox[id].kind, now))
            && (forall id | id in after.outbox && after.outbox[id].state.Open? && after.outbox[id].nextAt <= now ::
                  MessageDue(after.outbox[id], now))
            && (forall id | id in after.jobs && after.jobs[id].state.Running? ::
                  Claimable(after.jobs, id, now) || LapsedCancelled(after.jobs[id], now))
  {
    var after := RuntimeDb(RuntimeDb(db, RearmAll(now)), ResetLeases);
    forall id | id in after.jobs && after.jobs[id].state.Running?
      ensures Claimable(after.jobs, id, now) || LapsedCancelled(after.jobs[id], now)
    {
      assert !LiveSibling(after.jobs, id, after.jobs[id].aggregate, now);
    }
  }

  /** Re-check: every parked event that is not due yet becomes due. */
  method RecheckWaiting<B>(db: Database<B>, now: int)
    modifies db`tables
    ensures db.tables == RuntimeDb(old(db.tables), Recheck(now))
    ensures forall id | id in db.tables.inbox && AckAgain(db.tables.inbox[id]) && db.tables.inbox[id].state.Pending? ::
              db.tables.inbox[id].nextAt <= now
  {
    db.tables := db.tables.(inbox := RearmWaiting(db.tables.inbox, now));
  }

  /** Housekeeping: three deletes, one per table. */
  method PurgeTerminal<B>(db: Database<B>, now: int, retention: int)
    modifies db`tables
    ensures var before := now - retention;
            db.tables == RuntimeDb(RuntimeDb(RuntimeDb(old(db.tables), PurgeInboxRows(before)),
                                             PurgeOutboxRows(before)), PurgeJobRows(before))
  {
    var before := now - retention;
    db.tables := db.tables.(inbox := PurgeInbox(db.tables.inbox, before));
    db.tables := db.tables.(outbox := PurgeOutbox(db.tables.outbox, before));
    db.tables := db.tables.(jobs := PurgeJobs(db.tables.jobs, before));
  }

  /** A purge drops exactly the finished rows last touched before the horizon: what still
      has to be applied, sent or run always stays, unchanged. */
  lemma PurgeOnlyFinished(db: Db, before: int)
    ensures var after := RuntimeDb(RuntimeDb(RuntimeDb(db, PurgeInboxRows(before)), PurgeOutboxRows(before)),
                                   PurgeJobRows(before));
            && (forall id | id in db.inbox :: id in after.inbox <==>
                 db.inbox[id].state.Pending? || db.inbox[id].updatedAt >= before)
            && (forall m | m in db.outbox :: m in after.outbox <==>
                 db.outbox[m].state.Open? || db.outbox[m].updatedAt >= before)
            && (forall j | j in db.jobs :: j in after.jobs <==>
                 !db.jobs[j].state.Terminal() || db.jobs[j].updatedAt >= before)
            && (forall id | id in after.inbox :: id in db.inbox && after.inbox[id] == db.inbox[id])
            && (forall m | m in after.outbox :: m in db.outbox && after.outbox[m] == db.outbox[m])
            && (forall j | j in after.jobs :: j in db.jobs && after.jobs[j] == db.jobs[j])
            && after.aggregates == db.aggregates && after.poison == db.poison
  {
  }
}
