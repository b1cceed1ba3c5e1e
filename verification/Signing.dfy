/** One transcript per signing nonce (crates/store/src/signing.rs). The insert and the read
    that may follow it are separate statements, so calls interleave between them. */
module SigningAuthorizations {

  datatype Answer = Authorized | Repeated | Conflict(existing: string)

  datatype Call = Called(nonce: string, transcript: string)
                | Ignored(nonce: string, transcript: string)
                | Answered(nonce: string, transcript: string, answer: Answer)

  /** The authorization table, keyed by nonce, and every call ever made. */
  datatype Signing = Signing(bound: map<string, string>, calls: map<nat, Call>)

  datatype Step = Begin(call: nat, nonce: string, transcript: string) | InsertOrIgnore(call: nat) | Select(call: nat)

  const NOTHING_SIGNED := Signing(map[], map[])

  predicate Enabled(s: Signing, step: Step) {
    match step
    case Begin(k, _, _) => k !in s.calls
    case InsertOrIgnore(k) => k in s.calls && s.calls[k].Called?
    case Select(k) => k in s.calls && s.calls[k].Ignored?
  }

  /** What the read of an existing row answers. */
  function Compared(existing: string, transcript: string): Answer {
    if existing == transcript then Repeated else Conflict(existing)
  }

  function Next(s: Signing, step: Step): Signing
    requires Enabled(s, step)
  {
    match step
    case Begin(k, nonce, transcript) => s.(calls := s.calls[k := Called(nonce, transcript)])
    case InsertOrIgnore(k) =>
      var Called(nonce, transcript) := s.calls[k];
      if nonce in s.bound then s.(calls := s.calls[k := Ignored(nonce, transcript)])
      else Signing(s.bound[nonce := transcript], s.calls[k := Answered(nonce, transcript, Authorized)])
    case Select(k) =>
      var Ignored(nonce, transcript) := s.calls[k];
      if nonce !in s.bound then s
      else s.(calls := s.calls[k := Answered(nonce, transcript, Compared(s.bound[nonce], transcript))])
  }

  ghost predicate IsRun(run: seq<Signing>, steps: seq<Step>) {
    && |run| == |steps| + 1
    && forall i | 0 <= i < |steps| :: Enabled(run[i], steps[i]) && run[i + 1] == Next(run[i], steps[i])
  }

  predicate Signs(c: Call) { c.Answered? && !c.answer.Conflict? }

  /** Every permission given is for the transcript the nonce is bound to; one call at most
      was the first; a call that was ignored finds its row. */
  ghost predicate Bound(s: Signing) {
    && (forall k | k in s.calls && Signs(s.calls[k]) ::
         s.calls[k].nonce in s.bound && s.bound[s.calls[k].nonce] == s.calls[k].transcript)
    && (forall k | k in s.calls && s.calls[k].Ignored? :: s.calls[k].nonce in s.bound)
    && (forall j, k | j in s.calls && k in s.calls && s.calls[j].Answered? && s.calls[k].Answered?
                      && s.calls[j].answer.Authorized? && s.calls[k].answer.Authorized?
                      && s.calls[j].nonce == s.calls[k].nonce
          :: j == k)
    && (forall k | k in s.calls && s.calls[k].Answered? && s.calls[k].answer.Authorized? :: s.calls[k].nonce in s.bound)
  }

  lemma BoundKept(s: Signing, step: Step)
    requires Bound(s) && Enabled(s, step)
    ensures Bound(Next(s, step))
    ensures forall n | n in s.bound :: n in Next(s, step).bound && Next(s, step).bound[n] == s.bound[n]
    ensures forall k | k in s.calls && s.calls[k].Answered? ::
              k in Next(s, step).calls && Next(s, step).calls[k] == s.calls[k]
  {
  }

  lemma {:induction false} BoundOverRuns(run: seq<Signing>, steps: seq<Step>, i: nat)
    requires IsRun(run, steps) && run[0] == NOTHING_SIGNED && i < |run|
    ensures Bound(run[i])
  {
    if i > 0 {
      BoundOverRuns(run, steps, i - 1);
      BoundKept(run[i - 1], steps[i - 1]);
      assert run[i - 1 + 1] == Next(run[i - 1], steps[i - 1]);
    }
  }

  lemma {:induction false} AnswersStand(run: seq<Signing>, steps: seq<Step>, i: nat, j: nat, k: nat)
    requires IsRun(run, steps) && run[0] == NOTHING_SIGNED && i <= j < |run| && k in run[i].calls
             && run[i].calls[k].Answered?
    ensures k in run[j].calls && run[j].calls[k] == run[i].calls[k]
    decreases j
  {
    if i < j {
      AnswersStand(run, steps, i, j - 1, k);
      BoundOverRuns(run, steps, j - 1);
      BoundKept(run[j - 1], steps[j - 1]);
      assert run[j - 1 + 1] == Next(run[j - 1], steps[j - 1]);
    }
  }

  /** Across every interleaving, the permissions ever given map each nonce to one
      transcript, and at most one call per nonce is told it was the first. */
  lemma OneTranscriptPerNonce(run: seq<Signing>, steps: seq<Step>, i: nat, a: nat, j: nat, b: nat)
    requires IsRun(run, steps) && run[0] == NOTHING_SIGNED && i < |run| && j < |run|
    requires a in run[i].calls && b in run[j].calls && Signs(run[i].calls[a]) && Signs(run[j].calls[b])
    requires run[i].calls[a].nonce == run[j].calls[b].nonce
    ensures run[i].calls[a].transcript == run[j].calls[b].transcript
    ensures run[i].calls[a].answer.Authorized? && run[j].calls[b].answer.Authorized? ==> a == b
  {
    var last := |steps|;
    AnswersStand(run, steps, i, last, a);
    AnswersStand(run, steps, j, last, b);
    BoundOverRuns(run, steps, last);
  }

  /** A conflict names the transcript that owns the nonce, and that one is different. */
  lemma ConflictsAreReal(s: Signing, k: nat)
    requires Bound(s) && Enabled(s, Select(k))
    ensures var t := Next(s, Select(k));
            && t.calls[k].Answered? && !t.calls[k].answer.Authorized? && t.bound == s.bound
            && (t.calls[k].answer.Conflict? <==> s.bound[s.calls[k].nonce] != s.calls[k].transcript)
            && (t.calls[k].answer.Conflict? ==> t.calls[k].answer.existing == s.bound[s.calls[k].nonce])
  {
  }

  class AuthorizationTable {
    var bound: map<string, string>

    constructor ()
      ensures bound == map[]
    {
      bound := map[];
    }

    method InsertRow(nonce: string, transcript: string) returns (inserted: bool)
      modifies this
      ensures inserted <==> nonce !in old(bound)
      ensures bound == if inserted then old(bound)[nonce := transcript] else old(bound)
    {
      inserted := nonce !in bound;
      if inserted { bound := bound[nonce := transcript]; }
    }

    /** Authorize a nonce for a transcript: insert, and read the row when it was there. */
    method AuthorizeSigning(nonce: string, transcript: string) returns (answer: Answer)
      modifies this
      ensures nonce in bound && (answer.Conflict? <==> bound[nonce] != transcript)
      ensures answer.Authorized? <==> nonce !in old(bound)
      ensures answer.Conflict? ==> answer.existing == bound[nonce]
      ensures forall n | n in old(bound) :: n in bound && bound[n] == old(bound)[n]
      ensures forall n | n in bound :: n == nonce || n in old(bound)
    {
      var inserted := InsertRow(nonce, transcript);
      if inserted { return Authorized; }
      var existing := bound[nonce];
      answer := if existing == transcript then Repeated else Conflict(existing);
    }
  }
}
