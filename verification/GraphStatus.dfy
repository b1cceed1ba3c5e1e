/** The status of a graph and the evidence that may move it (crates/store/src/schema.rs,
    crates/store/src/localdb/graph.rs). */
module GraphStatuses {
  import opened Common

  datatype GraphStatus =
    | OperatorPresigned
    | CommitteePresigned
    | OperatorDataPushed
    | PreKickoff
    | OperatorKickOff
    | Challenge
    | Disprove
    | Obsoleted
    | Skipped
    | OperatorTake1
    | OperatorTake2
  {
    predicate Closed() { Disprove? || Skipped? || OperatorTake1? || OperatorTake2? }

    /** Setup and deliveries stop (node/src/aggregates/graph.rs). */
    predicate Retired() { Obsoleted? || Closed() }

    /** The name a row stores. */
    function Name(): string {
      match this
      case OperatorPresigned => "OperatorPresigned"
      case CommitteePresigned => "CommitteePresigned"
      case OperatorDataPushed => "OperatorDataPushed"
      case PreKickoff => "PreKickoff"
      case OperatorKickOff => "OperatorKickOff"
      case Challenge => "Challenge"
      case Disprove => "Disprove"
      case Obsoleted => "Obsoleted"
      case Skipped => "Skipped"
      case OperatorTake1 => "OperatorTake1"
      case OperatorTake2 => "OperatorTake2"
    }
  }

  datatype Source = Definition | GoatEvent | ChainReconcile

  const EARLY := {OperatorPresigned, CommitteePresigned}
  const UNTIL_DATA := EARLY + {OperatorDataPushed}
  const UNTIL_PRE_KICKOFF := UNTIL_DATA + {PreKickoff}
  const UNTIL_KICKOFF := UNTIL_PRE_KICKOFF + {OperatorKickOff}
  const UNTIL_CHALLENGE := UNTIL_KICKOFF + {Challenge}

  /** States from which `target` may be reached with the supplied evidence. */
  function AllowedFrom(target: GraphStatus, source: Source): set<GraphStatus> {
    match source
    case Definition => if target.CommitteePresigned? then {OperatorPresigned} else {}
    case GoatEvent =>
      (match target
       case OperatorDataPushed => EARLY
       case OperatorTake1 => UNTIL_KICKOFF + {Obsoleted}
       case OperatorTake2 => UNTIL_CHALLENGE + {Obsoleted}
       case Disprove => UNTIL_CHALLENGE + {Obsoleted}
       case _ => {})
    case ChainReconcile =>
      (match target
       case OperatorPresigned => {}
       case CommitteePresigned => {OperatorPresigned}
       case OperatorDataPushed => EARLY + {Obsoleted}
       case Obsoleted => UNTIL_CHALLENGE
       case PreKickoff => UNTIL_DATA + {Obsoleted}
       case OperatorKickOff => UNTIL_PRE_KICKOFF + {Obsoleted}
       case Challenge => UNTIL_KICKOFF + {Obsoleted}
       case OperatorTake1 => UNTIL_KICKOFF + {Obsoleted}
       case OperatorTake2 => UNTIL_CHALLENGE + {Obsoleted}
       case Disprove => UNTIL_CHALLENGE + {Obsoleted}
       case Skipped => UNTIL_PRE_KICKOFF + {Obsoleted})
  }

  predicate Edge(from: GraphStatus, to: GraphStatus, source: Source) { from in AllowedFrom(to, source) }

  // ------------------------------------------------------------------- writes

  datatype StatusWrite = StatusWrite(target: GraphStatus, source: Source)

  /** The conditional update: the status moves only along an edge. */
  function Moved(current: GraphStatus, w: StatusWrite): GraphStatus {
    if Edge(current, w.target, w.source) then w.target else current
  }

  /** A run of writes from the three sources in any order. */
  ghost predicate StatusRun(states: seq<GraphStatus>, writes: seq<StatusWrite>) {
    && |states| == |writes| + 1
    && forall i | 0 <= i < |writes| :: states[i + 1] == Moved(states[i], writes[i])
  }

  // ------------------------------------------------------- what a writer is told

  datatype Outcome = Applied | AlreadyCurrent | Rejected(current: GraphStatus) | NotFound

  /** The answer of a transition: its update found the status `updated`; when that moved
      nothing, a later statement read the status, or no row any more. */
  function Answer(updated: Option<GraphStatus>, read: Option<GraphStatus>, w: StatusWrite): Outcome {
    if updated.Some? && Edge(updated.value, w.target, w.source) then Applied
    else if read.None? then NotFound
    else if read.value == w.target then AlreadyCurrent
    else Rejected(read.value)
  }

  /** Whatever other writers do between the update, at `i`, and the read, at `k`: the answer
      is Applied exactly when this very write moved the status. Otherwise it tells the
      status at the read, and a status that is current without having been so at the update
      was moved there by another writer in between. */
  lemma OutcomeTells(states: seq<GraphStatus>, writes: seq<StatusWrite>, i: nat, k: nat)
    requires StatusRun(states, writes) && i < k < |states|
    ensures var answer := Answer(Some(states[i]), Some(states[k]), writes[i]);
            && (answer.Applied? <==> states[i + 1] != states[i])
            && (answer.AlreadyCurrent? <==> states[i + 1] == states[i] && states[k] == writes[i].target)
            && (forall current :: answer == Rejected(current) <==>
                  states[i + 1] == states[i] && states[k] == current && current != writes[i].target)
            && (answer.AlreadyCurrent? && states[i] != writes[i].target ==>
                  exists m | i < m < k :: writes[m].target == writes[i].target && states[m] != states[m + 1])
  {
    var w := writes[i];
    assert states[i + 1] == Moved(states[i], w);
    if Edge(states[i], w.target, w.source) { EdgesMove(states[i], w.target, w.source); }
    if states[i + 1] == states[i] && states[i] != w.target && states[k] == w.target {
      MovedThere(states, writes, i + 1, k);
    }
  }

  lemma {:induction false} MovedThere(states: seq<GraphStatus>, writes: seq<StatusWrite>, i: nat, k: nat)
    requires StatusRun(states, writes) && i <= k < |states| && states[i] != states[k]
    ensures exists m | i <= m < k :: writes[m].target == states[k] && states[m] != states[m + 1]
    decreases k
  {
    assert states[k - 1 + 1] == Moved(states[k - 1], writes[k - 1]);
    if states[k - 1] == states[k] {
      MovedThere(states, writes, i, k - 1);
    } else {
      assert writes[k - 1].target == states[k] && states[k - 1] != states[k - 1 + 1];
    }
  }

  /** A write that was rejected stays so whatever other writers do. */
  ghost predicate RejectedForGood(status: GraphStatus, w: StatusWrite) {
    forall states, writes | StatusRun(states, writes) && states[0] == status ::
      !Edge(states[|states| - 1], w.target, w.source)
  }

  /** A rejected write can be allowed again later, by way of Obsoleted, unless the status is
      closed or the write is open to presigned graphs only. */
  lemma RejectedForGoodIff(status: GraphStatus, w: StatusWrite)
    requires !Edge(status, w.target, w.source)
    ensures RejectedForGood(status, w) <==> status.Closed() || AllowedFrom(w.target, w.source) <= EARLY
  {
    if status.Closed() || AllowedFrom(w.target, w.source) <= EARLY {
      forall states, writes | StatusRun(states, writes) && states[0] == status
        ensures !Edge(states[|states| - 1], w.target, w.source)
      {
        StaysRejected(states, writes, w);
      }
    } else {
      Reopens(status, w);
    }
  }

  lemma StaysRejected(states: seq<GraphStatus>, writes: seq<StatusWrite>, w: StatusWrite)
    requires StatusRun(states, writes) && !Edge(states[0], w.target, w.source)
    requires states[0].Closed() || AllowedFrom(w.target, w.source) <= EARLY
    ensures !Edge(states[|states| - 1], w.target, w.source)
  {
    ClosedIsAbsorbing(states, writes, 0, |states| - 1);
  }

  lemma Reopens(status: GraphStatus, w: StatusWrite)
    requires !status.Closed() && !(AllowedFrom(w.target, w.source) <= EARLY)
    ensures !RejectedForGood(status, w)
  {
    var open :| open in AllowedFrom(w.target, w.source) && open !in EARLY;
    var path := (if status.Obsoleted? then [] else [status]) + [Obsoleted] + (if open.Obsoleted? then [] else [open]);
    forall i | 0 <= i < |path| - 1 ensures Edge(path[i], path[i + 1], ChainReconcile) {
    }
    ChainPathRuns(path);
    assert path[0] == status && path[|path| - 1] == open && Edge(open, w.target, w.source);
  }

  // --------------------------------------------------------------------- counting

  function Applications(states: seq<GraphStatus>): nat
    requires |states| > 0
  {
    if |states| == 1 then 0
    else Applications(states[..|states| - 1]) + if states[|states| - 1] != states[|states| - 2] then 1 else 0
  }

  function Obsoletions(states: seq<GraphStatus>): nat
    requires |states| > 0
  {
    if |states| == 1 then 0
    else Obsoletions(states[..|states| - 1])
         + if states[|states| - 1].Obsoleted? && !states[|states| - 2].Obsoleted? then 1 else 0
  }

  /** No edge loops, so an applied write always changes the status. */
  lemma EdgesMove(from: GraphStatus, to: GraphStatus, source: Source)
    requires Edge(from, to, source)
    ensures from != to && !from.Closed() && !to.OperatorPresigned?
    ensures to.CommitteePresigned? ==> from.OperatorPresigned?
  {
  }

  /** How many moves are left before a status closes, while it is not obsoleted again. */
  function Potential(s: GraphStatus): nat {
    match s
    case OperatorPresigned => 6
    case CommitteePresigned => 5
    case OperatorDataPushed => 4
    case PreKickoff => 3
    case OperatorKickOff => 2
    case Challenge => 1
    case Obsoleted => 5
    case _ => 0
  }

  lemma EdgesSpendPotential(from: GraphStatus, to: GraphStatus, source: Source)
    requires Edge(from, to, source)
    ensures to.Obsoleted? ==> Potential(from) >= 1
    ensures !to.Obsoleted? ==> Potential(to) < Potential(from)
  {
  }

  /** Closed states are absorbing, and the presigned states are never entered again. */
  lemma {:induction false} ClosedIsAbsorbing(states: seq<GraphStatus>, writes: seq<StatusWrite>, i: nat, k: nat)
    requires StatusRun(states, writes) && i <= k < |states|
    ensures states[i].Closed() ==> states[k] == states[i]
    ensures !states[i].OperatorPresigned? ==> !states[k].OperatorPresigned?
    ensures !states[i].OperatorPresigned? && !states[i].CommitteePresigned? ==> !states[k].CommitteePresigned?
    decreases k
  {
    if i < k {
      ClosedIsAbsorbing(states, writes, i, k - 1);
      var w := writes[k - 1];
      assert states[k - 1 + 1] == Moved(states[k - 1], w);
      if Edge(states[k - 1], w.target, w.source) { EdgesMove(states[k - 1], w.target, w.source); }
    }
  }

  /** A run applies at most 6 + 5k transitions, k being its entries into Obsoleted. */
  lemma {:induction false} TransitionsBounded(states: seq<GraphStatus>, writes: seq<StatusWrite>)
    requires StatusRun(states, writes)
    ensures Applications(states) + Potential(states[|states| - 1]) <= Potential(states[0]) + 5 * Obsoletions(states)
    ensures Applications(states) <= 6 + 5 * Obsoletions(states)
  {
    if writes != [] {
      var n := |writes| - 1;
      var front := states[..n + 1];
      TransitionsBounded(front, writes[..n]);
      assert states[n + 1] == Moved(states[n], writes[n]);
      assert states[..|states| - 1] == front;
      var w := writes[n];
      if Edge(states[n], w.target, w.source) {
        EdgesMove(states[n], w.target, w.source);
        EdgesSpendPotential(states[n], w.target, w.source);
      }
    }
  }

  // ---------------------------------------------------- the bound is reached

  function Lap(): seq<GraphStatus> { [Obsoleted, OperatorDataPushed, PreKickoff, OperatorKickOff, Challenge] }

  function LongestUntilChallenge(k: nat): (states: seq<GraphStatus>)
    ensures |states| == 6 + 5 * k && states[|states| - 1] == Challenge && states[0] == OperatorPresigned
  {
    if k == 0 then [OperatorPresigned, CommitteePresigned, OperatorDataPushed, PreKickoff, OperatorKickOff, Challenge]
    else LongestUntilChallenge(k - 1) + Lap()
  }

  ghost predicate ChainPath(path: seq<GraphStatus>) {
    forall i | 0 <= i < |path| - 1 :: Edge(path[i], path[i + 1], ChainReconcile)
  }

  lemma ChainPathRuns(path: seq<GraphStatus>)
    requires |path| > 0 && ChainPath(path)
    ensures StatusRun(path, seq(|path| - 1, i requires 0 <= i < |path| - 1 => StatusWrite(path[i + 1], ChainReconcile)))
  {
    var writes := seq(|path| - 1, i requires 0 <= i < |path| - 1 => StatusWrite(path[i + 1], ChainReconcile));
    forall i | 0 <= i < |writes| ensures path[i + 1] == Moved(path[i], writes[i]) {
      assert Edge(path[i], path[i + 1], ChainReconcile);
    }
  }

  lemma Extends(states: seq<GraphStatus>, s: GraphStatus)
    requires |states| > 0
    ensures Applications(states + [s]) == Applications(states) + if s != states[|states| - 1] then 1 else 0
    ensures Obsoletions(states + [s])
            == Obsoletions(states) + if s.Obsoleted? && !states[|states| - 1].Obsoleted? then 1 else 0
  {
    assert (states + [s])[..|states + [s]| - 1] == states;
  }

  lemma ExtendsByLap(states: seq<GraphStatus>)
    requires |states| > 0 && states[|states| - 1] == Challenge && ChainPath(states)
    ensures ChainPath(states + Lap())
    ensures Applications(states + Lap()) == Applications(states) + 5
    ensures Obsoletions(states + Lap()) == Obsoletions(states) + 1
  {
    var a := states + [Obsoleted];
    var b := a + [OperatorDataPushed];
    var c := b + [PreKickoff];
    var d := c + [OperatorKickOff];
    var e := d + [Challenge];
    Extends(states, Obsoleted);
    Extends(a, OperatorDataPushed);
    Extends(b, PreKickoff);
    Extends(c, OperatorKickOff);
    Extends(d, Challenge);
    assert e == states + Lap();
    forall i | 0 <= i < |e| - 1 ensures Edge(e[i], e[i + 1], ChainReconcile) {
      if i < |states| - 1 {
        assert e[i] == states[i] && e[i + 1] == states[i + 1];
      } else {
        assert e[i] == ([Challenge] + Lap())[i - |states| + 1] && e[i + 1] == ([Challenge] + Lap())[i - |states| + 2];
      }
    }
  }

  lemma FirstAscent()
    ensures var path := LongestUntilChallenge(0); ChainPath(path) && Applications(path) == 5 && Obsoletions(path) == 0
  {
    var a := [OperatorPresigned];
    var b := a + [CommitteePresigned];
    var c := b + [OperatorDataPushed];
    var d := c + [PreKickoff];
    var e := d + [OperatorKickOff];
    var f := e + [Challenge];
    Extends(a, CommitteePresigned);
    Extends(b, OperatorDataPushed);
    Extends(c, PreKickoff);
    Extends(d, OperatorKickOff);
    Extends(e, Challenge);
    assert f == LongestUntilChallenge(0);
    assert Applications(a) == 0 && Obsoletions(a) == 0;
  }

  lemma {:induction false} LongestIsAPath(k: nat)
    ensures ChainPath(LongestUntilChallenge(k))
    ensures Applications(LongestUntilChallenge(k)) == 5 + 5 * k && Obsoletions(LongestUntilChallenge(k)) == k
  {
    if k == 0 {
      FirstAscent();
    } else {
      LongestIsAPath(k - 1);
      ExtendsByLap(LongestUntilChallenge(k - 1));
    }
  }

  /** For every k some run with k obsoletions applies exactly 6 + 5k transitions. */
  lemma BoundIsTight(k: nat) returns (states: seq<GraphStatus>, writes: seq<StatusWrite>)
    ensures StatusRun(states, writes) && Obsoletions(states) == k && Applications(states) == 6 + 5 * k
  {
    var path := LongestUntilChallenge(k);
    LongestIsAPath(k);
    states := path + [OperatorTake2];
    Extends(path, OperatorTake2);
    forall i | 0 <= i < |states| - 1 ensures Edge(states[i], states[i + 1], ChainReconcile) {
      if i < |path| - 1 { assert states[i] == path[i] && states[i + 1] == path[i + 1]; }
    }
    ChainPathRuns(states);
    writes := seq(|states| - 1, i requires 0 <= i < |states| - 1 => StatusWrite(states[i + 1], ChainReconcile));
  }

  // ------------------------------------------------------- transitive edges

  lemma EdgesCompose(a: GraphStatus, b: GraphStatus, c: GraphStatus)
    requires Edge(a, b, ChainReconcile) && Edge(b, c, ChainReconcile) && !a.Obsoleted? && !b.Obsoleted?
    ensures Edge(a, c, ChainReconcile)
  {
  }

  /** A chain-reconcile path that leaves from outside Obsoleted and only ever ends there
      can be taken in one direct step. */
  lemma {:induction false} PathsCollapse(path: seq<GraphStatus>)
    requires |path| >= 2 && ChainPath(path) && forall i | 0 <= i < |path| - 1 :: !path[i].Obsoleted?
    ensures Edge(path[0], path[|path| - 1], ChainReconcile)
  {
    assert Edge(path[|path| - 2], path[|path| - 2 + 1], ChainReconcile);
    if |path| > 2 {
      PathsCollapse(path[..|path| - 1]);
      EdgesCompose(path[0], path[|path| - 2], path[|path| - 1]);
    }
  }

  /** Through Obsoleted a path reaches states that no direct step does. */
  lemma ObsoletedPathsDoNotCollapse()
    ensures ChainPath([Challenge, Obsoleted, OperatorDataPushed])
    ensures forall source :: !Edge(Challenge, OperatorDataPushed, source)
    ensures ChainPath([Obsoleted, OperatorDataPushed, Obsoleted]) && !Edge(Obsoleted, Obsoleted, ChainReconcile)
  {
    var p, q := [Challenge, Obsoleted, OperatorDataPushed], [Obsoleted, OperatorDataPushed, Obsoleted];
    assert forall i | 0 <= i < 2 :: Edge(p[i], p[i + 1], ChainReconcile) && Edge(q[i], q[i + 1], ChainReconcile);
  }

  /** Names identify statuses, so mirroring a name mirrors the status. */
  lemma NamesDiffer(a: GraphStatus, b: GraphStatus)
    requires a.Name() == b.Name()
    ensures a == b && a.Name() != ""
  {
    var x, y := a.Name(), b.Name();
    assert |x| == |y|;
    assert x[0] == y[0] && x[|x| - 1] == y[|y| - 1];
    if |x| > 9 { assert x[8] == y[8]; }
  }
}
