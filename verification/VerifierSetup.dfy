/** The operator's verifier candidates: freeze, record and seal
    (node/src/aggregates/graph_setup.rs), and their arrival
    (node/src/aggregates/graph_jobs.rs). */
module VerifierSetup {
  import opened Common
  import opened KeyOrder

  /** A compressed public key in hexadecimal, which orders as its bytes do. */
  type Key = string

  /** The key without its parity byte. */
  function XOnly(key: Key): Key { if |key| < 2 then [] else key[2..] }

  datatype GcData = GcData(owner: Key, hashlocks: seq<string>)
  datatype ProofReady = ProofReady(candidateIndex: nat, reference: string)
  datatype ProverState = ProverState(package: string, finalizedIndices: seq<nat>, finalized: nat, hashes: seq<string>)

  datatype Candidate = Candidate(peer: string, key: Key, package: string, index: Option<nat>, circuits: seq<nat>,
                                 gcData: Option<GcData>, proof: Option<ProofReady>)

  datatype Setup = Setup(candidates: seq<Candidate>, frozen: Option<seq<Key>>, selected: Option<seq<Key>>)

  const NO_SETUP := Setup([], None, None)

  /** How many verifiers a graph needs, how many candidates are collected beyond that, how
      many instances a proof finalizes, and the circuit cut a setup package determines, if
      it is well formed. */
  datatype Rules = Rules(required: nat, backups: nat, instances: nat, cut: string -> Option<seq<nat>>)

  function KeyOf(c: Candidate): Key { c.key }
  function PeerOf(c: Candidate): string { c.peer }
  function XOnlyOf(c: Candidate): Key { XOnly(c.key) }

  // -------------------------------------------------------------------- arrival

  /** A verifier offers itself: one key per peer, one peer per key, until the pool is frozen
      or full. */
  function Arrive(rules: Rules, s: Setup, peer: string, key: Key, package: string): (bool, Setup) {
    var i := IndexOf(PeerOf, s.candidates, peer);
    if i < |s.candidates| then (s.candidates[i].key == key && s.candidates[i].package == package, s)
    else if exists k | 0 <= k < |s.candidates| :: XOnlyOf(s.candidates[k]) == XOnly(key) then (false, s)
    else if s.frozen.Some? || |s.candidates| >= rules.required + rules.backups then (false, s)
    else (true, s.(candidates := s.candidates + [Candidate(peer, key, package, None, [], None, None)]))
  }

  // --------------------------------------------------------------------- freeze

  /** Number the candidates from `i` on and derive their circuit cuts, up to the first
      package that has none. */
  function AssignFrom(rules: Rules, cs: seq<Candidate>, i: nat): (bool, seq<Candidate>)
    requires i <= |cs|
    decreases |cs| - i
  {
    if i == |cs| then (true, cs)
    else
      var numbered := cs[i := cs[i].(index := Some(i))];
      var cut := rules.cut(cs[i].package);
      if cut.None? then (false, numbered)
         else AssignFrom(rules, numbered[i := numbered[i].(circuits := cut.value)], i + 1)
  }

  function Keys(cs: seq<Candidate>): seq<Key> { seq(|cs|, i requires 0 <= i < |cs| => cs[i].key) }

  /** Close the candidate pool: canonical order, provisional slots and circuit cuts. */
  function Freeze(rules: Rules, s: Setup): (bool, Setup) {
    if s.frozen.Some? then (true, s)
    else if |s.candidates| < rules.required || !Distinct(PeerOf, s.candidates) then (false, s)
    else
      var (ok, cs) := AssignFrom(rules, SortBy(KeyOf, s.candidates), 0);
      (ok, if ok then s.(candidates := cs, frozen := Some(Keys(cs))) else s.(candidates := cs))
  }

  /** What numbering changes, and that it changes nothing else. */
  lemma {:induction false} AssignGives(rules: Rules, cs: seq<Candidate>, i: nat)
    requires i <= |cs|
    ensures var (ok, out) := AssignFrom(rules, cs, i);
            && |out| == |cs| && (forall k | 0 <= k < |cs| :: SameCandidate(cs[k], out[k]))
               && (forall k | 0 <= k < i :: out[k] == cs[k])
            && (ok ==> forall k | i <= k < |cs| ::
                 out[k].index == Some(k) && Some(out[k].circuits) == rules.cut(cs[k].package))
    decreases |cs| - i
  {
    if i < |cs| {
      var numbered := cs[i := cs[i].(index := Some(i))];
      var cut := rules.cut(cs[i].package);
      if cut.Some? { AssignGives(rules, numbered[i := numbered[i].(circuits := cut.value)], i + 1); }
    }
  }

  /** Who a candidate is and what was recorded for it. */
  predicate SameCandidate(a: Candidate, b: Candidate) {
    a.peer == b.peer && a.key == b.key && a.package == b.package && a.gcData == b.gcData && a.proof == b.proof
  }

  /** The frozen pool does not depend on the order in which candidates arrived. */
  lemma FreezeIgnoresArrival(rules: Rules, a: Setup, b: Setup)
    requires a.frozen.None? && b.frozen.None? && a.selected == b.selected
    requires multiset(a.candidates) == multiset(b.candidates) && Distinct(KeyOf, a.candidates)
    ensures Freeze(rules, a).0 == Freeze(rules, b).0
    ensures Freeze(rules, a).0 ==> Freeze(rules, a).1 == Freeze(rules, b).1
  {
    assert |multiset(a.candidates)| == |a.candidates| && |multiset(b.candidates)| == |b.candidates|;
    if Distinct(PeerOf, a.candidates) { DistinctAnyOrder(PeerOf, a.candidates, b.candidates); }
    if Distinct(PeerOf, b.candidates) { DistinctAnyOrder(PeerOf, b.candidates, a.candidates); }
    SortSorts(KeyOf, a.candidates);
    SortSorts(KeyOf, b.candidates);
    DistinctAnyOrder(KeyOf, a.candidates, SortBy(KeyOf, a.candidates));
    SortedIsUnique(KeyOf, SortBy(KeyOf, a.candidates), SortBy(KeyOf, b.candidates));
  }

  // --------------------------------------------------------------- record and seal

  datatype Proof = Proof(key: Key, index: nat, package: string, gcData: GcData, prover: ProverState, ready: ProofReady)

  /** Whether a soldering proof fits the candidate and nothing recorded contradicts it. */
  predicate Fits(rules: Rules, c: Candidate, p: Proof) {
    && p.gcData.owner == p.key && c.index == Some(p.index) && c.package == p.package && p.prover.package == p.package
    && c.circuits == p.prover.finalizedIndices && p.ready.candidateIndex == p.index
    && p.prover.finalized == rules.instances && |p.prover.hashes| == rules.instances
    && p.prover.hashes == p.gcData.hashlocks
    && (c.gcData.Some? ==> c.gcData.value == p.gcData) && (c.proof.Some? ==> c.proof.value == p.ready)
  }

  function Record(rules: Rules, s: Setup, p: Proof): (bool, Setup) {
    var i := IndexOf(KeyOf, s.candidates, p.key);
    if i == |s.candidates| || !Fits(rules, s.candidates[i], p) then (false, s)
    else (true, s.(candidates := s.candidates[i := s.candidates[i].(gcData := Some(p.gcData), proof := Some(p.ready))]))
  }

  predicate Ascending(keys: seq<Key>) { forall i | 0 <= i < |keys| - 1 :: Less(keys[i], keys[i + 1]) }

  function Seal(rules: Rules, s: Setup, keys: seq<Key>): (bool, Setup) {
    if s.selected.Some? then (s.selected.value == keys, s)
    else if |keys| != rules.required || !Ascending(keys) || exists i | 0 <= i < |keys| ::
        IndexOf(KeyOf, s.candidates, keys[i]) == |s.candidates|
    then (false, s)
    else (true, s.(selected := Some(keys)))
  }

  // ------------------------------------------------------------- what never changes

  datatype Op =
    | ArriveOp(peer: string, key: Key, package: string)
    | FreezeOp
    | RecordOp(proof: Proof)
    | SealOp(keys: seq<Key>)

  function Apply(rules: Rules, s: Setup, op: Op): Setup {
    match op
    case ArriveOp(peer, key, package) => Arrive(rules, s, peer, key, package).1
    case FreezeOp => Freeze(rules, s).1
    case RecordOp(p) => Record(rules, s, p).1
    case SealOp(keys) => Seal(rules, s, keys).1
  }

  ghost predicate IsRun(rules: Rules, states: seq<Setup>, ops: seq<Op>) {
    && |states| == |ops| + 1 && states[0] == NO_SETUP
    && forall i | 0 <= i < |ops| :: states[i + 1] == Apply(rules, states[i], ops[i])
  }

  /** Candidates differ in peer and in x-only key, and hold data of their own key. */
  ghost predicate PoolSound(cs: seq<Candidate>) {
    && Distinct(PeerOf, cs) && Distinct(XOnlyOf, cs)
    && forall i | 0 <= i < |cs| && cs[i].gcData.Some? :: cs[i].gcData.value.owner == cs[i].key
  }

  /** What a seal fixes: ascending keys, all of them candidates. */
  ghost predicate SealSound(s: Setup) {
    s.selected.Some? ==>
      Ascending(s.selected.value)
      && forall i | 0 <= i < |s.selected.value| :: IndexOf(KeyOf, s.candidates, s.selected.value[i]) < |s.candidates|
  }

  ghost predicate Indexed(s: Setup) {
    s.frozen.Some? ==>
      Keys(s.candidates) == s.frozen.value && forall i | 0 <= i < |s.candidates| :: s.candidates[i].index == Some(i)
  }

  ghost predicate Sound(s: Setup) { PoolSound(s.candidates) && SealSound(s) && Indexed(s) }

  /** The candidate is still there, with whatever was recorded for it. */
  ghost predicate Carried(c: Candidate, cs: seq<Candidate>) {
    exists k | 0 <= k < |cs| :: CarriedAt(c, cs[k])
  }

  predicate CarriedAt(c: Candidate, d: Candidate) {
    && d.peer == c.peer && d.key == c.key && d.package == c.package
    && (c.gcData.Some? ==> d.gcData == c.gcData) && (c.proof.Some? ==> d.proof == c.proof)
  }

  /** Candidates, frozen slots and cuts, recorded data and the sealed selection stand. */
  ghost predicate Stands(a: Setup, b: Setup) {
    && (a.selected.Some? ==> b.selected == a.selected)
    && (a.frozen.Some? ==>
          && b.frozen == a.frozen && |b.candidates| == |a.candidates|
          && forall i | 0 <= i < |a.candidates| :: SameSlot(a.candidates[i], b.candidates[i]))
    && (forall i | 0 <= i < |a.candidates| :: Carried(a.candidates[i], b.candidates))
  }

  predicate SameSlot(a: Candidate, b: Candidate) { b.key == a.key && b.index == a.index && b.circuits == a.circuits }

  lemma DistinctKeysOf(cs: seq<Candidate>)
    requires Distinct(XOnlyOf, cs)
    ensures Distinct(KeyOf, cs)
  {
    assert forall i, k | 0 <= i < k < |cs| :: XOnlyOf(cs[i]) != XOnlyOf(cs[k]);
  }

  lemma ArriveStands(rules: Rules, s: Setup, peer: string, key: Key, package: string)
    requires Sound(s)
    ensures Stands(s, Arrive(rules, s, peer, key, package).1) && Sound(Arrive(rules, s, peer, key, package).1)
  {
    StandsStill(s);
    var t := Arrive(rules, s, peer, key, package).1;
    if t != s {
      ArrivalSound(s.candidates, Candidate(peer, key, package, None, [], None, None));
      forall i | 0 <= i < |s.candidates| ensures Carried(s.candidates[i], t.candidates) {
        assert CarriedAt(s.candidates[i], t.candidates[i]);
      }
      SealSurvives(s, t);
    }
  }

  lemma ArrivalSound(cs: seq<Candidate>, c: Candidate)
    requires PoolSound(cs) && c.gcData.None? && IndexOf(PeerOf, cs, c.peer) == |cs|
    requires forall k | 0 <= k < |cs| :: XOnlyOf(cs[k]) != XOnlyOf(c)
    ensures PoolSound(cs + [c])
  {
    DistinctAppend(PeerOf, cs, c);
    DistinctAppend(XOnlyOf, cs, c);
  }

  /** Sorting and numbering keep the pool and what was recorded. */
  lemma FreezeKeeps(cs: seq<Candidate>, out: seq<Candidate>, sorted: seq<Candidate>)
    requires PoolSound(cs) && multiset(sorted) == multiset(cs) && |out| == |sorted|
    requires forall k | 0 <= k < |sorted| :: SameCandidate(sorted[k], out[k])
    ensures PoolSound(out) && forall i | 0 <= i < |cs| :: Carried(cs[i], out)
  {
    DistinctAnyOrder(PeerOf, cs, sorted);
    DistinctAnyOrder(XOnlyOf, cs, sorted);
    forall k | 0 <= k < |out| && out[k].gcData.Some? ensures out[k].gcData.value.owner == out[k].key {
      assert sorted[k] in multiset(cs);
      var i :| 0 <= i < |cs| && cs[i] == sorted[k];
    }
    forall i | 0 <= i < |cs| ensures Carried(cs[i], out) {
      assert cs[i] in multiset(sorted);
      var k :| 0 <= k < |sorted| && sorted[k] == cs[i];
      assert CarriedAt(cs[i], out[k]);
    }
  }

  lemma FreezeStands(rules: Rules, s: Setup)
    requires Sound(s)
    ensures Stands(s, Freeze(rules, s).1) && Sound(Freeze(rules, s).1)
  {
    if s.frozen.None? && |s.candidates| >= rules.required {
      var cs, sorted := s.candidates, SortBy(KeyOf, s.candidates);
      SortSorts(KeyOf, cs);
      AssignGives(rules, sorted, 0);
      var t := Freeze(rules, s).1;
      FreezeKeeps(cs, t.candidates, sorted);
      SealSurvives(s, t);
    } else {
      StandsStill(s);
    }
  }

  lemma SealSurvives(s: Setup, t: Setup)
    requires SealSound(s) && t.selected == s.selected
    requires forall i | 0 <= i < |s.candidates| :: Carried(s.candidates[i], t.candidates)
    ensures SealSound(t)
  {
    if s.selected.Some? {
      forall i | 0 <= i < |s.selected.value|
        ensures IndexOf(KeyOf, t.candidates, s.selected.value[i]) < |t.candidates|
      {
        var f := IndexOf(KeyOf, s.candidates, s.selected.value[i]);
        var k :| 0 <= k < |t.candidates| && CarriedAt(s.candidates[f], t.candidates[k]);
      }
    }
  }

  lemma RecordStands(rules: Rules, s: Setup, p: Proof)
    requires Sound(s)
    ensures Stands(s, Record(rules, s, p).1) && Sound(Record(rules, s, p).1)
  {
    var t := Record(rules, s, p).1;
    assert |t.candidates| == |s.candidates|;
    forall i | 0 <= i < |s.candidates| ensures CarriedAt(s.candidates[i], t.candidates[i])
        && SameSlot(s.candidates[i], t.candidates[i]) {
    }
    assert Keys(t.candidates) == Keys(s.candidates);
    forall i | 0 <= i < |s.candidates| ensures Carried(s.candidates[i], t.candidates) {
      assert CarriedAt(s.candidates[i], t.candidates[i]);
    }
    SealSurvives(s, t);
  }

  lemma SealStands(rules: Rules, s: Setup, keys: seq<Key>)
    requires Sound(s)
    ensures Stands(s, Seal(rules, s, keys).1) && Sound(Seal(rules, s, keys).1)
  {
    StandsStill(s);
  }

  lemma StandsStill(s: Setup)
    ensures Stands(s, s)
  {
    forall i | 0 <= i < |s.candidates| ensures Carried(s.candidates[i], s.candidates) {
      assert CarriedAt(s.candidates[i], s.candidates[i]);
    }
  }

  lemma StandsTwice(a: Setup, b: Setup, c: Setup)
    requires Stands(a, b) && Stands(b, c)
    ensures Stands(a, c)
  {
    forall i | 0 <= i < |a.candidates| ensures Carried(a.candidates[i], c.candidates) {
      var m :| 0 <= m < |b.candidates| && CarriedAt(a.candidates[i], b.candidates[m]);
      var k :| 0 <= k < |c.candidates| && CarriedAt(b.candidates[m], c.candidates[k]);
      assert CarriedAt(a.candidates[i], c.candidates[k]);
    }
  }

  lemma OpStands(rules: Rules, s: Setup, op: Op)
    requires Sound(s)
    ensures Stands(s, Apply(rules, s, op)) && Sound(Apply(rules, s, op))
  {
    match op
    case ArriveOp(peer, key, package) => ArriveStands(rules, s, peer, key, package);
    case FreezeOp => FreezeStands(rules, s);
    case RecordOp(p) => RecordStands(rules, s, p);
    case SealOp(keys) => SealStands(rules, s, keys);
  }

  lemma {:induction false} SoundOverRuns(rules: Rules, states: seq<Setup>, ops: seq<Op>, i: nat)
    requires IsRun(rules, states, ops) && i < |states|
    ensures Sound(states[i])
  {
    if i > 0 {
      SoundOverRuns(rules, states, ops, i - 1);
      assert states[i - 1 + 1] == Apply(rules, states[i - 1], ops[i - 1]);
      OpStands(rules, states[i - 1], ops[i - 1]);
    }
  }

  lemma NextStands(rules: Rules, states: seq<Setup>, ops: seq<Op>, i: nat)
    requires IsRun(rules, states, ops) && i < |ops|
    ensures Stands(states[i], states[i + 1])
  {
    SoundOverRuns(rules, states, ops, i);
    OpStands(rules, states[i], ops[i]);
  }

  lemma {:induction false} StandsAlong(states: seq<Setup>, i: nat, j: nat)
    requires i <= j < |states| && forall k | i <= k < j :: Stands(states[k], states[k + 1])
    ensures Stands(states[i], states[j])
    decreases j
  {
    if i == j {
      StandsStill(states[i]);
    } else {
      StandsAlong(states, i, j - 1);
      assert Stands(states[j - 1], states[j - 1 + 1]);
      StandsTwice(states[i], states[j - 1], states[j]);
    }
  }

  /** From the empty setup, after any sequence of arrivals, freezes, records and seals:
      candidates, frozen slots and cuts, recorded data and proof references, and the sealed
      selection never change again. */
  lemma SetupOnlyFillsIn(rules: Rules, states: seq<Setup>, ops: seq<Op>, i: nat, j: nat)
    requires IsRun(rules, states, ops) && i <= j < |states|
    ensures Stands(states[i], states[j])
  {
    forall k | i <= k < j ensures Stands(states[k], states[k + 1]) {
      NextStands(rules, states, ops, k);
    }
    StandsAlong(states, i, j);
  }

  /** On a run, freezing fails only for a short pool or a package without a cut: no two
      candidates share a peer. */
  lemma FreezeSucceedsIff(rules: Rules, states: seq<Setup>, ops: seq<Op>, i: nat)
    requires IsRun(rules, states, ops) && i < |states| && states[i].frozen.None?
    ensures Freeze(rules, states[i]).0 <==>
              && |states[i].candidates| >= rules.required
              && forall k | 0 <= k < |states[i].candidates| :: rules.cut(states[i].candidates[k].package).Some?
  {
    SoundOverRuns(rules, states, ops, i);
    var cs, sorted := states[i].candidates, SortBy(KeyOf, states[i].candidates);
    SortSorts(KeyOf, cs);
    AssignSucceeds(rules, sorted, 0);
    SamePackages(rules, cs, sorted);
  }

  lemma SamePackages(rules: Rules, cs: seq<Candidate>, sorted: seq<Candidate>)
    requires multiset(cs) == multiset(sorted)
    ensures (forall k | 0 <= k < |cs| :: rules.cut(cs[k].package).Some?)
            <==> (forall k | 0 <= k < |sorted| :: rules.cut(sorted[k].package).Some?)
  {
    forall k | 0 <= k < |cs| ensures cs[k] in multiset(sorted) {}
    forall k | 0 <= k < |sorted| ensures sorted[k] in multiset(cs) {}
  }

  lemma {:induction false} AssignSucceeds(rules: Rules, cs: seq<Candidate>, i: nat)
    requires i <= |cs|
    ensures AssignFrom(rules, cs, i).0 <==> forall k | i <= k < |cs| :: rules.cut(cs[k].package).Some?
    decreases |cs| - i
  {
    if i < |cs| {
      var cut := rules.cut(cs[i].package);
      if cut.Some? {
        var next := cs[i := cs[i].(index := Some(i), circuits := cut.value)];
        assert cs[i := cs[i].(index := Some(i))][i := cs[i].(index := Some(i)).(circuits := cut.value)] == next;
        AssignSucceeds(rules, next, i + 1);
        assert forall k | i < k < |cs| :: next[k] == cs[k];
      }
    }
  }

  // -------------------------------------------------------------------- lookups

  predicate HasData(s: Setup, key: Key) {
    var i := IndexOf(KeyOf, s.candidates, key);
    i < |s.candidates| && s.candidates[i].gcData.Some?
  }

  /** The recorded data of the sealed verifiers, in sealed order. */
  function SelectedGcData(s: Setup): Option<seq<GcData>> {
    if s.selected.None? || exists i | 0 <= i < |s.selected.value| :: !HasData(s, s.selected.value[i]) then None
    else
      var keys := s.selected.value;
      Some(seq(|keys|, i requires 0 <= i < |keys|
               && HasData(s, keys[i]) => s.candidates[IndexOf(KeyOf, s.candidates, keys[i])].gcData.value))
  }

  datatype Lookup = Absent | Found(index: nat) | Duplicate

  /** The places a key owns. */
  function Places(gc: seq<GcData>, key: Key): seq<nat> {
    if gc == [] then []
    else Places(gc[..|gc| - 1], key) + if gc[|gc| - 1].owner == key then [|gc| - 1] else []
  }

  function FindVerifierIndex(gc: seq<GcData>, key: Key): Lookup {
    var places := Places(gc, key);
    if places == [] then Absent else if |places| == 1 then Found(places[0]) else Duplicate
  }

  lemma {:induction false} AscendingIsDistinct(keys: seq<Key>, i: nat, k: nat)
    requires Ascending(keys) && i < k < |keys|
    ensures Less(keys[i], keys[k]) && keys[i] != keys[k]
    decreases k
  {
    assert Less(keys[k - 1], keys[k - 1 + 1]);
    if i < k - 1 {
      AscendingIsDistinct(keys, i, k - 1);
      LessTransitive(keys[i], keys[k - 1], keys[k]);
    }
    LessTotal(keys[i], keys[k]);
  }

  lemma {:induction false} OnePlace(gc: seq<GcData>, key: Key, i: nat)
    requires i < |gc| && gc[i].owner == key && forall k | 0 <= k < |gc| && k != i :: gc[k].owner != key
    ensures Places(gc, key) == [i]
  {
    if i < |gc| - 1 {
      OnePlace(gc[..|gc| - 1], key, i);
    } else {
      NoPlace(gc[..|gc| - 1], key);
    }
  }

  lemma {:induction false} NoPlace(gc: seq<GcData>, key: Key)
    requires forall k | 0 <= k < |gc| :: gc[k].owner != key
    ensures Places(gc, key) == []
  {
    if gc != [] { NoPlace(gc[..|gc| - 1], key); }
  }

  /** Looking up the i-th sealed key in the selected data returns exactly i. */
  lemma SealedLookup(rules: Rules, states: seq<Setup>, ops: seq<Op>, n: nat, i: nat)
    requires IsRun(rules, states, ops) && n < |states| && SelectedGcData(states[n]).Some?
    requires i < |states[n].selected.value|
    ensures |SelectedGcData(states[n]).value| == |states[n].selected.value|
    ensures FindVerifierIndex(SelectedGcData(states[n]).value, states[n].selected.value[i]) == Found(i)
  {
    SoundOverRuns(rules, states, ops, n);
    var s := states[n];
    var keys, gc := s.selected.value, SelectedGcData(s).value;
    forall k | 0 <= k < |gc| ensures gc[k].owner == keys[k] {
      assert HasData(s, keys[k]);
    }
    forall k | 0 <= k < |gc| && k != i ensures gc[k].owner != keys[i] {
      if k < i { AscendingIsDistinct(keys, k, i); } else { AscendingIsDistinct(keys, i, k); }
    }
    OnePlace(gc, keys[i], i);
  }

  /** A key stands for one candidate, so what is carried on is what the lookup finds. */
  lemma FoundAgain(a: Setup, b: Setup, key: Key)
    requires Sound(a) && Sound(b) && Stands(a, b) && HasData(a, key)
    ensures HasData(b, key)
    ensures b.candidates[IndexOf(KeyOf, b.candidates, key)].gcData
            == a.candidates[IndexOf(KeyOf, a.candidates, key)].gcData
  {
    var i, k := IndexOf(KeyOf, a.candidates, key), IndexOf(KeyOf, b.candidates, key);
    assert Carried(a.candidates[i], b.candidates);
    var m :| 0 <= m < |b.candidates| && CarriedAt(a.candidates[i], b.candidates[m]);
    DistinctKeysOf(b.candidates);
    SameKey(KeyOf, b.candidates, k, m);
  }

  /** Once the data of all sealed verifiers is complete it never changes: the graph built
      from it is the same at any later time. */
  lemma SelectedDataStands(rules: Rules, states: seq<Setup>, ops: seq<Op>, i: nat, j: nat)
    requires IsRun(rules, states, ops) && i <= j < |states| && SelectedGcData(states[i]).Some?
    ensures SelectedGcData(states[j]) == SelectedGcData(states[i])
  {
    var a, b := states[i], states[j];
    SoundOverRuns(rules, states, ops, i);
    SoundOverRuns(rules, states, ops, j);
    SetupOnlyFillsIn(rules, states, ops, i, j);
    forall n | 0 <= n < |a.selected.value|
      ensures HasData(b, a.selected.value[n])
      ensures SelectedGcData(a).value[n] == b.candidates[IndexOf(KeyOf, b.candidates, a.selected.value[n])].gcData.value
    {
      FoundAgain(a, b, a.selected.value[n]);
    }
    var x, y := SelectedGcData(a).value, SelectedGcData(b).value;
    assert |x| == |y| && forall n | 0 <= n < |x| :: x[n] == y[n];
    assert x == y;
  }

  // --------------------------------------------------------------- in place

  class OperatorSetup {
    var candidates: seq<Candidate>
    var frozen: Option<seq<Key>>
    var selected: Option<seq<Key>>

    function State(): Setup
      reads this
    {
      Setup(candidates, frozen, selected)
    }

    constructor ()
      ensures State() == NO_SETUP
    {
      candidates, frozen, selected := [], None, None;
    }

    /** A verifier's offer: refused when peer or key contradict an earlier one, or the pool
        is closed. */
    method AddCandidate(rules: Rules, peer: string, key: Key, package: string) returns (ok: bool)
      modifies this
      ensures (ok, State()) == Arrive(rules, old(State()), peer, key, package)
    {
      var i := 0;
      while i < |candidates| && candidates[i].peer != peer
        invariant i <= |candidates| && forall k | 0 <= k < i :: candidates[k].peer != peer
      {
        i := i + 1;
      }
      if i < |candidates| { return candidates[i].key == key && candidates[i].package == package; }
      for n := 0 to |candidates|
        invariant forall k | 0 <= k < n :: XOnlyOf(candidates[k]) != XOnly(key)
      {
        if XOnly(candidates[n].key) == XOnly(key) { return false; }
      }
      if frozen.Some? || |candidates| >= rules.required + rules.backups { return false; }
      candidates := candidates + [Candidate(peer, key, package, None, [], None, None)];
      ok := true;
    }

    method PeersDistinct() returns (ok: bool)
      ensures ok == Distinct(PeerOf, candidates)
    {
      var seen: set<string> := {};
      for n := 0 to |candidates|
        invariant Distinct(PeerOf, candidates[..n])
        invariant forall p :: p in seen <==> exists i | 0 <= i < n :: candidates[i].peer == p
      {
        if candidates[n].peer in seen {
          return false;
        }
        seen := seen + {candidates[n].peer};
      }
      assert candidates[..|candidates|] == candidates;
      ok := true;
    }

    method FreezeCandidates(rules: Rules) returns (ok: bool)
      modifies this
      ensures (ok, State()) == Freeze(rules, old(State()))
    {
      if frozen.Some? { return true; }
      if |candidates| < rules.required { return false; }
      var distinct := PeersDistinct();
      if !distinct { return false; }
      candidates := SortBy(KeyOf, candidates);
      ghost var sorted := candidates;
      var i := 0;
      while i < |candidates|
        invariant i <= |candidates| && frozen == old(frozen) && selected == old(selected)
        invariant AssignFrom(rules, candidates, i) == AssignFrom(rules, sorted, 0)
      {
        candidates := candidates[i := candidates[i].(index := Some(i))];
        var cut := rules.cut(candidates[i].package);
        if cut.None? { return false; }
        candidates := candidates[i := candidates[i].(circuits := cut.value)];
        i := i + 1;
      }
      frozen := Some(Keys(candidates));
      ok := true;
    }

    method FindCandidate(key: Key) returns (i: nat)
      ensures i == IndexOf(KeyOf, candidates, key)
    {
      i := 0;
      while i < |candidates| && candidates[i].key != key
        invariant i <= |candidates| && forall k | 0 <= k < i :: candidates[k].key != key
      {
        i := i + 1;
      }
    }

    /** Store verified proof data against its candidate slot, once. */
    method RecordGcData(rules: Rules, p: Proof) returns (ok: bool)
      modifies this
      ensures (ok, State()) == Record(rules, old(State()), p)
    {
      var i := FindCandidate(p.key);
      if i == |candidates| || !Fits(rules, candidates[i], p) { return false; }
      if candidates[i].gcData.None? { candidates := candidates[i := candidates[i].(gcData := Some(p.gcData))]; }
      if candidates[i].proof.None? { candidates := candidates[i := candidates[i].(proof := Some(p.ready))]; }
      assert candidates[i] == old(candidates)[i].(gcData := Some(p.gcData), proof := Some(p.ready));
      assert candidates == old(candidates)[i := candidates[i]];
      ok := true;
    }

    method SealSelection(rules: Rules, keys: seq<Key>) returns (ok: bool)
      modifies this
      ensures (ok, State()) == Seal(rules, old(State()), keys)
    {
      if selected.Some? { return selected.value == keys; }
      if |keys| != rules.required || !Ascending(keys) { return false; }
      for n := 0 to |keys|
        invariant forall i | 0 <= i < n :: IndexOf(KeyOf, candidates, keys[i]) < |candidates|
        invariant State() == old(State())
      {
        var i := FindCandidate(keys[n]);
        if i == |candidates| { return false; }
      }
      selected := Some(keys);
      ok := true;
    }
  }

  /** The one place of a key among the graph's verifier slots. */
  method LookupVerifier(gc: seq<GcData>, key: Key) returns (r: Lookup)
    ensures r == FindVerifierIndex(gc, key)
    ensures r.Found? ==> r.index < |gc| && gc[r.index].owner == key
  {
    var places: seq<nat> := [];
    for n := 0 to |gc|
      invariant places == Places(gc[..n], key)
      invariant forall i | 0 <= i < |places| :: places[i] < n && gc[places[i]].owner == key
    {
      assert gc[..n + 1][..n] == gc[..n];
      if gc[n].owner == key { places := places + [n]; }
    }
    assert gc[..|gc|] == gc;
    r := if places == [] then Absent else if |places| == 1 then Found(places[0]) else Duplicate;
  }
}
