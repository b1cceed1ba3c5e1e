/** The outbox publisher (crates/engine/src/outbox.rs) and received ACKs. */
module EnginePublisher {
  import opened EngineTypes
  import opened EngineTables
  import opened EngineTransactions
  import opened EngineBackoff
  import opened EngineWorker
  import opened EngineExecutor

  function DueMessages(outbox: map<string, OutboxRow>, now: int): map<string, (int, int)> {
    map id | id in outbox && MessageDue(outbox[id], now) :: (outbox[id].nextAt, outbox[id].createdAt)
  }

  /** A row after one attempt to publish it. */
  function Attempted(row: OutboxRow, ok: bool, backoff: Backoff, now: int): OutboxRow {
    if ok then RecordPublish(row, now + Delay(backoff, row.publishCount + 1), now)
    else RecordPublishFailure(row, now + Delay(backoff, 1), now)
  }

  /** The outbox with every row of `done` attempted once and every row of `leased` claimed. */
  function Progress(outbox: map<string, OutboxRow>, done: seq<string>, leased: seq<string>, delivers: string -> bool,
                    backoff: Backoff, leaseUntil: int, now: int): map<string, OutboxRow>
  {
    map id | id in outbox ::
      if id in done then Attempted(outbox[id], delivers(id), backoff, now)
      else if id in leased then outbox[id].(leaseUntil := leaseUntil, updatedAt := now)
      else outbox[id]
  }

  lemma AttemptedNotDue(row: OutboxRow, ok: bool, backoff: Backoff, now: int)
    requires Positive(backoff)
    ensures !MessageDue(Attempted(row, ok, backoff, now), now) || !row.state.Open?
  {
    assert Delay(backoff, row.publishCount + 1) > 0 && Delay(backoff, 1) > 0;
  }

  function Leased(outbox: map<string, OutboxRow>, batch: seq<string>, leaseUntil: int, now: int)
    : map<string, OutboxRow>
  {
    map id | id in outbox :: if id in batch then outbox[id].(leaseUntil := leaseUntil, updatedAt := now) else outbox[id]
  }

  method ClaimMessages<B>(db: Database<B>, now: int, leaseUntil: int, limit: int) returns (batch: seq<string>)
    modifies db`tables
    ensures FirstOf(DueMessages(old(db.tables.outbox), now), limit, batch)
    ensures db.tables == old(db.tables).(outbox := Leased(old(db.tables.outbox), batch, leaseUntil, now))
  {
    batch := SelectFirst(DueMessages(db.tables.outbox, now), limit);
    ghost var before := db.tables;
    for i := 0 to |batch|
      invariant db.tables == before.(outbox := Leased(before.outbox, batch[..i], leaseUntil, now))
    {
      var id := batch[i];
      assert id !in batch[..i] && batch[..i + 1] == batch[..i] + [id];
      assert id in DueMessages(before.outbox, now);
      if MessageDue(db.tables.outbox[id], now) {
        var leased := db.tables.outbox[id].(leaseUntil := leaseUntil, updatedAt := now);
        db.tables := db.tables.(outbox := db.tables.outbox[id := leased]);
      }
    }
    assert batch[..|batch|] == batch;
  }

  function Delivered(ids: seq<string>, delivers: string -> bool): nat {
    if ids == [] then 0 else Delivered(ids[..|ids| - 1], delivers) + if delivers(ids[|ids| - 1]) then 1 else 0
  }

  /** Publish one claimed row and record how it went. */
  method PublishOne<B>(db: Database<B>, id: string, now: int, backoff: Backoff, ok: bool)
    requires id in db.tables.outbox
    modifies db`tables
    ensures db.tables == old(db.tables).(outbox :=
              old(db.tables.outbox)[id := Attempted(old(db.tables.outbox)[id], ok, backoff, now)])
  {
    var row := db.tables.outbox[id];
    if ok {
      var nextAt := now + Delay(backoff, row.publishCount + 1);
      db.tables := db.tables.(outbox := db.tables.outbox[id := RecordPublish(row, nextAt, now)]);
    } else {
      var nextAt := now + Delay(backoff, 1);
      db.tables := db.tables.(outbox := db.tables.outbox[id := RecordPublishFailure(row, nextAt, now)]);
    }
  }

  lemma BatchAt(done: seq<string>, batch: seq<string>, i: nat)
    requires i < |batch| && NoDuplicates(done + batch)
    ensures batch[i] !in done + batch[..i] && batch[i..] == [batch[i]] + batch[i + 1..]
    ensures done + batch[..i + 1] == done + batch[..i] + [batch[i]]
  {
    assert forall k | 0 <= k < |done + batch[..i]| :: (done + batch[..i])[k] == (done + batch)[k];
    assert (done + batch)[|done| + i] == batch[i];
  }

  lemma DeliveredOneMore(ids: seq<string>, i: nat, delivers: string -> bool)
    requires i < |ids|
    ensures Delivered(ids[..i + 1], delivers) == Delivered(ids[..i], delivers) + if delivers(ids[i]) then 1 else 0
  {
    assert ids[..i + 1][..i] == ids[..i];
  }

  /** Publish a claimed batch row by row. */
  method PublishBatch<B>(db: Database<B>, ghost origin: map<string, OutboxRow>, ghost done: seq<string>,
                         batch: seq<string>,
                         now: int, ghost leaseUntil: int, backoff: Backoff, delivers: string -> bool)
    returns (published: nat)
    requires NoDuplicates(done + batch)
    requires forall i | 0 <= i < |batch| :: batch[i] in origin && origin[batch[i]].state.Open?
    requires db.tables.outbox == Progress(origin, done, batch, delivers, backoff, leaseUntil, now)
    modifies db`tables
    ensures db.tables == old(db.tables).(outbox := Progress(origin, done + batch, [], delivers, backoff, leaseUntil,
                                                            now))
    ensures published == Delivered(batch, delivers)
  {
    published := 0;
    ghost var before := db.tables;
    assert done + batch[..0] == done && batch[0..] == batch;
    for i := 0 to |batch|
      invariant db.tables == before.(outbox := Progress(origin, done + batch[..i], batch[i..], delivers, backoff,
                                                        leaseUntil, now))
      invariant published == Delivered(batch[..i], delivers)
    {
      var id := batch[i];
      BatchAt(done, batch, i);
      PublishedOne(origin, done + batch[..i], id, batch[i + 1..], delivers, backoff, leaseUntil, now);
      DeliveredOneMore(batch, i, delivers);
      var ok := delivers(id);
      PublishOne(db, id, now, backoff, ok);
      if ok { published := published + 1; }
    }
    assert batch[..|batch|] == batch && batch[|batch|..] == [];
  }

  lemma PublishedOne(origin: map<string, OutboxRow>, done: seq<string>, id: string, rest: seq<string>,
                     delivers: string -> bool, backoff: Backoff, leaseUntil: int, now: int)
    requires id !in done && id in origin && origin[id].state.Open?
    ensures var before := Progress(origin, done, [id] + rest, delivers, backoff, leaseUntil, now);
            Progress(origin, done + [id], rest, delivers, backoff, leaseUntil, now)
            == before[id := Attempted(before[id], delivers(id), backoff, now)]
  {
  }

  /** Publish every due row once. With the clock at `now`, nobody else writing and a
      positive backoff, the loop ends, each due row is attempted exactly once, and none is
      due afterwards. A batch size of zero publishes nothing. */
  method DrainOutbox<B>(db: Database<B>, now: int, leaseSecs: int, batchSize: int, backoff: Backoff,
                        delivers: string -> bool)
    returns (published: nat, attempted: seq<string>)
    requires Positive(backoff)
    modifies db`tables
    ensures NoDuplicates(attempted) && published == Delivered(attempted, delivers)
    ensures forall id :: id in attempted <==>
              batchSize != 0 && id in old(db.tables.outbox) && MessageDue(old(db.tables.outbox)[id], now)
    ensures batchSize != 0 ==> forall id | id in db.tables.outbox :: !MessageDue(db.tables.outbox[id], now)
    ensures db.tables == old(db.tables).(outbox :=
              Progress(old(db.tables.outbox), attempted, [], delivers, backoff, now + leaseSecs, now))
  {
    published, attempted := 0, [];
    ghost var before := db.tables;
    ghost var origin := db.tables.outbox;
    NothingDone(origin, delivers, backoff, now + leaseSecs, now);
    while true
      invariant OnceEach(origin, attempted, now) && published == Delivered(attempted, delivers)
      invariant batchSize == 0 ==> attempted == []
      invariant db.tables == before.(outbox := Progress(origin, attempted, [], delivers, backoff, now + leaseSecs, now))
      decreases |DueMessages(origin, now)| - |attempted|
    {
      var n, batch := NextBatch(db, origin, attempted, now, leaseSecs, batchSize, backoff, delivers);
      DueBounds(origin, attempted + batch, now);
      DeliveredConcat(attempted, batch, delivers);
      published, attempted := published + n, attempted + batch;
      if batch == [] || |batch| < batchSize {
        if batchSize != 0 { Drained(origin, attempted, delivers, backoff, now + leaseSecs, now); }
        return;
      }
    }
  }

  /** `done` lists due rows of `origin`, none twice. */
  ghost predicate OnceEach(origin: map<string, OutboxRow>, done: seq<string>, now: int) {
    NoDuplicates(done) && forall i | 0 <= i < |done| :: done[i] in origin && MessageDue(origin[done[i]], now)
  }

  ghost predicate AllDone(origin: map<string, OutboxRow>, done: seq<string>, now: int) {
    forall id | id in origin && MessageDue(origin[id], now) :: id in done
  }

  lemma Drained(origin: map<string, OutboxRow>, done: seq<string>, delivers: string -> bool, backoff: Backoff,
                leaseUntil: int, now: int)
    requires Positive(backoff) && OnceEach(origin, done, now) && AllDone(origin, done, now)
    ensures var outbox := Progress(origin, done, [], delivers, backoff, leaseUntil, now);
            forall id | id in outbox :: !MessageDue(outbox[id], now)
    ensures forall id :: id in done <==> id in origin && MessageDue(origin[id], now)
  {
    DueLeft(origin, done, delivers, backoff, leaseUntil, now);
  }

  lemma DueBounds(origin: map<string, OutboxRow>, done: seq<string>, now: int)
    requires OnceEach(origin, done, now)
    ensures |done| <= |DueMessages(origin, now)|
  {
    AtMostAll(done, DueMessages(origin, now).Keys);
  }

  lemma NothingDone(origin: map<string, OutboxRow>, delivers: string -> bool, backoff: Backoff, leaseUntil: int,
                    now: int)
    ensures Progress(origin, [], [], delivers, backoff, leaseUntil, now) == origin
  {
  }

  method ClaimNext<B>(db: Database<B>, ghost origin: map<string, OutboxRow>, ghost done: seq<string>, now: int,
                      leaseUntil: int, batchSize: int, ghost backoff: Backoff, ghost delivers: string -> bool)
    returns (batch: seq<string>)
    requires Positive(backoff) && OnceEach(origin, done, now)
    requires db.tables.outbox == Progress(origin, done, [], delivers, backoff, leaseUntil, now)
    modifies db`tables
    ensures OnceEach(origin, done + batch, now) && (batchSize >= 0 ==> |batch| <= batchSize)
    ensures forall i | 0 <= i < |batch| :: batch[i] in origin && origin[batch[i]].state.Open?
    ensures db.tables == old(db.tables).(outbox := Progress(origin, done, batch, delivers, backoff, leaseUntil, now))
    ensures |batch| != batchSize ==> AllDone(origin, done + batch, now)
  {
    ghost var was := db.tables.outbox;
    DueLeft(origin, done, delivers, backoff, leaseUntil, now);
    batch := ClaimMessages(db, now, leaseUntil, batchSize);
    BatchDue(origin, was, done, batch, delivers, backoff, leaseUntil, now, batchSize);
  }

  /** One turn of the loop: claim what is due, up to the batch size, and publish it. */
  method NextBatch<B>(db: Database<B>, ghost origin: map<string, OutboxRow>, ghost done: seq<string>, now: int,
                      leaseSecs: int, batchSize: int, backoff: Backoff, delivers: string -> bool)
    returns (published: nat, batch: seq<string>)
    requires Positive(backoff) && OnceEach(origin, done, now)
    requires db.tables.outbox == Progress(origin, done, [], delivers, backoff, now + leaseSecs, now)
    modifies db`tables
    ensures OnceEach(origin, done + batch, now) && published == Delivered(batch, delivers)
    ensures batchSize >= 0 ==> |batch| <= batchSize
    ensures db.tables == old(db.tables).(outbox := Progress(origin, done + batch, [], delivers, backoff,
                                                            now + leaseSecs, now))
    ensures |batch| != batchSize ==> AllDone(origin, done + batch, now)
  {
    batch := ClaimNext(db, origin, done, now, now + leaseSecs, batchSize, backoff, delivers);
    published := PublishBatch(db, origin, done, batch, now, now + leaseSecs, backoff, delivers);
  }

  /** What is still due is what was due and has not been attempted. */
  lemma DueLeft(origin: map<string, OutboxRow>, done: seq<string>, delivers: string -> bool, backoff: Backoff,
                leaseUntil: int, now: int)
    requires Positive(backoff) && OnceEach(origin, done, now)
    ensures var outbox := Progress(origin, done, [], delivers, backoff, leaseUntil, now);
            forall id | id in outbox :: MessageDue(outbox[id], now) <==> MessageDue(origin[id], now) && id !in done
  {
    forall id | id in origin && id in done ensures !MessageDue(Attempted(origin[id], delivers(id), backoff, now), now) {
      AttemptedNotDue(origin[id], delivers(id), backoff, now);
    }
  }

  lemma BatchDue(origin: map<string, OutboxRow>, outbox: map<string, OutboxRow>, done: seq<string>, batch: seq<string>,
                  delivers: string -> bool, backoff: Backoff, leaseUntil: int, now: int, limit: int)
    requires outbox == Progress(origin, done, [], delivers, backoff, leaseUntil, now) && OnceEach(origin, done, now)
    requires forall id | id in outbox :: MessageDue(outbox[id], now) <==> MessageDue(origin[id], now) && id !in done
    requires FirstOf(DueMessages(outbox, now), limit, batch)
    ensures OnceEach(origin, done + batch, now)
    ensures forall i | 0 <= i < |batch| :: batch[i] in origin && MessageDue(origin[batch[i]], now)
    ensures Leased(outbox, batch, leaseUntil, now) == Progress(origin, done, batch, delivers, backoff, leaseUntil, now)
    ensures |batch| != limit ==> AllDone(origin, done + batch, now)
    ensures limit >= 0 ==> |batch| <= limit
  {
    forall i | 0 <= i < |batch| ensures batch[i] in origin && MessageDue(origin[batch[i]], now) && batch[i] !in done {
      assert batch[i] in DueMessages(outbox, now);
    }
    forall id | id in origin && MessageDue(origin[id], now) && |batch| != limit ensures id in done + batch {
      if id !in done { assert id in DueMessages(outbox, now) && id in batch; }
    }
  }

  lemma {:induction false} AtMostAll(ids: seq<string>, all: set<string>)
    requires NoDuplicates(ids) && forall i | 0 <= i < |ids| :: ids[i] in all
    ensures |ids| <= |all|
  {
    if ids != [] {
      var front, last := ids[..|ids| - 1], ids[|ids| - 1];
      forall i | 0 <= i < |front| ensures front[i] in all - {last} { assert front[i] == ids[i]; }
      AtMostAll(front, all - {last});
    }
  }

  lemma {:induction false} DeliveredConcat(a: seq<string>, b: seq<string>, delivers: string -> bool)
    ensures Delivered(a + b, delivers) == Delivered(a, delivers) + Delivered(b, delivers)
  {
    if b == [] {
      assert a + b == a;
    } else {
      assert (a + b)[..|a + b| - 1] == a + b[..|b| - 1];
      DeliveredConcat(a, b[..|b| - 1], delivers);
    }
  }

  // -------------------------------------------------------------------- ACKs

  datatype AckOutcome = Matched(id: string, closed: bool) | NoMatch

  lemma OnlyPeer(m: map<string, string>, peer: string)
    requires peer in m
    ensures m - {peer} == map[] <==> m.Keys == {peer}
  {
    assert (m - {peer}).Keys == m.Keys - {peer};
    if m - {peer} == map[] {
      assert m.Keys - {peer} == {};
    }
  }

  /** Apply an ACK: one row that waits for exactly this peer and delivery, if any, drops
      the peer; the row closes when nobody is left. */
  method AcknowledgeOutbox<B>(db: Database<B>, peer: string, delivery: string, now: int) returns (r: AckOutcome)
    modifies db`tables
    ensures r.NoMatch? ==>
              db.tables == old(db.tables)
              && forall id | id in db.tables.outbox :: !AckMatches(db.tables.outbox[id], peer, delivery)
    ensures r.Matched? ==>
              && r.id in old(db.tables.outbox) && AckMatches(old(db.tables.outbox)[r.id], peer, delivery)
              && db.tables == old(db.tables).(outbox :=
                   old(db.tables.outbox)[r.id := AcknowledgeRow(old(db.tables.outbox)[r.id], peer, now)])
              && (r.closed <==> old(db.tables.outbox)[r.id].ackSet.value.Keys == {peer})
              && (r.closed <==> db.tables.outbox[r.id].state.Closed?)
  {
    var left := db.tables.outbox.Keys;
    while left != {}
      invariant left <= db.tables.outbox.Keys && db.tables == old(db.tables)
      invariant forall id | id in db.tables.outbox && id !in left :: !AckMatches(db.tables.outbox[id], peer, delivery)
    {
      var id :| id in left;
      left := left - {id};
      var row := db.tables.outbox[id];
      if AckMatches(row, peer, delivery) {
        var rest := row.ackSet.value - {peer};
        OnlyPeer(row.ackSet.value, peer);
        db.tables := db.tables.(outbox := db.tables.outbox[id := AcknowledgeRow(row, peer, now)]);
        return Matched(id, rest == map[]);
      }
    }
    r := NoMatch;
  }

  /** ACKs of distinct peers commute: the row ends the same in either order. */
  lemma AcksCommute(row: OutboxRow, p: string, q: string, now: int)
    requires row.state.Open? && row.ackSet.Some? && p in row.ackSet.value && q in row.ackSet.value && p != q
    ensures AcknowledgeRow(AcknowledgeRow(row, p, now), q, now) == AcknowledgeRow(AcknowledgeRow(row, q, now), p, now)
    ensures AcknowledgeRow(AcknowledgeRow(row, p, now), q, now).state.Closed? <==> row.ackSet.value.Keys == {p, q}
  {
    var m := row.ackSet.value;
    assert m - {p} - {q} == m - {q} - {p};
    assert q in m - {p} && p in m - {q};
    OnlyPeer(m - {p}, q);
    assert (m - {p}).Keys == m.Keys - {p};
    assert m.Keys == (m.Keys - {p}) + {p} && {q} + {p} == {p, q} && {p, q} - {p} == {q};
  }
}
