/** Validation of on-chain timelock configurations (crates/bitvm-gc/src/timelocks.rs). */
module Timelocks {

  const UINT32_MAX := 0xffff_ffff
  newtype uint32 = x: int | 0 <= x <= UINT32_MAX

  datatype Network = Bitcoin | Testnet | Testnet4 | Signet | Regtest

  datatype TimelockConfig = TimelockConfig(
    connectorZ: uint32, connectorA: uint32, proverConnector: uint32, connectorD: uint32,
    watchtowerChallenge: uint32, operatorAck: uint32, operatorCommit: uint32, connectorF: uint32)

  function DefaultConfig(n: Network): TimelockConfig {
    match n
    case Bitcoin => TimelockConfig(144, 144, 144, 432, 144, 288, 432, 576)
    case Testnet => TimelockConfig(100, 6, 16, 32, 20, 28, 42, 56)
    case Testnet4 => TimelockConfig(100, 6, 16, 32, 20, 28, 42, 56)
    case Signet => TimelockConfig(6, 6, 6, 18, 6, 12, 18, 24)
    case Regtest => TimelockConfig(60, 2, 1, 3, 1, 2, 3, 4)
  }

  // ------------------------------------------------------------ timing budget

  function SaturatingAdd(a: uint32, b: uint32): uint32 {
    if a as int + b as int > UINT32_MAX then UINT32_MAX as uint32 else a + b
  }

  function SaturatingSub(a: uint32, b: uint32): uint32 { if a < b then 0 else a - b }

  datatype Budget = Budget(evidence: uint32, reaction: uint32, watchtowerProof: uint32, inclusion: uint32,
                           safety: uint32) {
    function ActionWindow(): uint32 { SaturatingAdd(SaturatingAdd(reaction, inclusion), safety) }
    function WatchtowerProofWindow(): uint32 { SaturatingAdd(ActionWindow(), watchtowerProof) }
    function ConfirmedActionWindow(): uint32 { SaturatingAdd(SaturatingAdd(evidence, inclusion), safety) }
  }

  function TimingBudget(n: Network): Budget {
    match n
    case Bitcoin => Budget(6, 6, 24, 6, 6)
    case Testnet => Budget(10, 2, 12, 2, 2)
    case Testnet4 => Budget(10, 2, 12, 2, 2)
    case Signet => Budget(1, 1, 2, 1, 1)
    case Regtest => Budget(0, 1, 0, 0, 0)
  }

  // --------------------------------------------------------------- validation

  datatype Verdict = Accepted | Refused(field: string)

  const BLOCKS := 0x1_0000

  /** The bits of a value outside the low sixteen, `value & !0x0000ffff`. */
  function OutsideMask(value: uint32): int { value as int - value as int % BLOCKS }

  /** BIP 68, section "Specification": a height-based lock is a 16-bit block count. */
  function CheckSequence(field: string, value: uint32): Verdict {
    if OutsideMask(value) != 0 then Refused(field) else Accepted
  }

  function CheckAtLeast(field: string, value: uint32, required: uint32): Verdict {
    if value < required then Refused(field) else Accepted
  }

  function CheckGap(field: string, left: uint32, right: uint32, required: uint32): Verdict {
    if SaturatingSub(right, left) < required then Refused(field) else Accepted
  }

  function Then(first: Verdict, second: Verdict): Verdict { if first.Refused? then first else second }

  function CheckFields(fields: seq<(string, uint32)>, reaction: uint32): Verdict {
    if fields == [] then Accepted
    else
      var (name, value) := fields[0];
      Then(Then(CheckSequence(name, value), CheckAtLeast(name, value, reaction)), CheckFields(fields[1..], reaction))
  }

  function Fields(c: TimelockConfig): seq<(string, uint32)> {
    [("connector_z", c.connectorZ), ("connector_a", c.connectorA), ("prover_connector", c.proverConnector),
     ("connector_d", c.connectorD), ("watchtower_challenge", c.watchtowerChallenge), ("operator_ack", c.operatorAck),
     ("operator_commit", c.operatorCommit), ("connector_f", c.connectorF)]
  }

  function Max(a: uint32, b: uint32): uint32 { if a < b then b else a }

  function Validate(n: Network, c: TimelockConfig): Verdict {
    var b := TimingBudget(n);
    var action, confirmed := b.ActionWindow(), b.ConfirmedActionWindow();
    Then(CheckFields(Fields(c), b.reaction),
    Then(if c.connectorZ != DefaultConfig(n).connectorZ then Refused("connector_z") else Accepted,
    Then(CheckAtLeast("connector_a", c.connectorA, action),
    Then(CheckAtLeast("watchtower_challenge", c.watchtowerChallenge, b.WatchtowerProofWindow()),
    Then(CheckGap("operator_ack", c.watchtowerChallenge, c.operatorAck, action),
    Then(CheckGap("operator_commit", Max(c.watchtowerChallenge, c.operatorAck), c.operatorCommit, confirmed),
    Then(CheckAtLeast("prover_connector", c.proverConnector, action),
    Then(CheckGap("connector_d", c.proverConnector, c.connectorD, action),
         CheckGap("connector_f", c.operatorCommit, c.connectorF, confirmed)))))))))
  }

  // --------------------------------------------------- what acceptance means

  predicate Sixteen(value: uint32, atLeast: uint32) { atLeast <= value && value < BLOCKS as uint32 }

  /** `right` comes at least `gap` blocks after `left`; a gap of zero demands nothing. */
  predicate Apart(left: uint32, right: uint32, gap: uint32) { gap == 0 || left as int + gap as int <= right as int }

  ghost predicate WellTimed(n: Network, c: TimelockConfig) {
    var b := TimingBudget(n);
    var action, confirmed := b.ActionWindow(), b.ConfirmedActionWindow();
    && Sixteen(c.connectorZ, b.reaction) && Sixteen(c.connectorA, b.reaction) && Sixteen(c.proverConnector, b.reaction)
    && Sixteen(c.connectorD, b.reaction) && Sixteen(c.watchtowerChallenge, b.reaction)
    && Sixteen(c.operatorAck, b.reaction)
    && Sixteen(c.operatorCommit, b.reaction) && Sixteen(c.connectorF, b.reaction)
    && c.connectorZ == DefaultConfig(n).connectorZ
    && action <= c.connectorA && action <= c.proverConnector && b.WatchtowerProofWindow() <= c.watchtowerChallenge
    && Apart(c.watchtowerChallenge, c.operatorAck, action) && Apart(c.proverConnector, c.connectorD, action)
    && Apart(Max(c.watchtowerChallenge, c.operatorAck), c.operatorCommit, confirmed)
    && Apart(c.operatorCommit, c.connectorF, confirmed)
  }

  lemma MaskIsBound(value: uint32)
    ensures OutsideMask(value) == 0 <==> value < BLOCKS as uint32
  {
  }

  lemma GapIsApart(field: string, left: uint32, right: uint32, required: uint32)
    ensures CheckGap(field, left, right, required).Accepted? <==> Apart(left, right, required)
  {
  }

  lemma {:induction false} FieldsInRange(fields: seq<(string, uint32)>, reaction: uint32)
    ensures CheckFields(fields, reaction).Accepted? <==> forall i | 0 <= i < |fields| :: Sixteen(fields[i].1, reaction)
  {
    if fields != [] {
      FieldsInRange(fields[1..], reaction);
      MaskIsBound(fields[0].1);
      assert fields == [fields[0]] + fields[1..];
    }
  }

  lemma FieldsOf(c: TimelockConfig, reaction: uint32)
    ensures CheckFields(Fields(c), reaction).Accepted? <==>
              && Sixteen(c.connectorZ, reaction) && Sixteen(c.connectorA, reaction)
              && Sixteen(c.proverConnector, reaction)
              && Sixteen(c.connectorD, reaction) && Sixteen(c.watchtowerChallenge, reaction)
              && Sixteen(c.operatorAck, reaction)
              && Sixteen(c.operatorCommit, reaction) && Sixteen(c.connectorF, reaction)
  {
    FieldsInRange(Fields(c), reaction);
    var f := Fields(c);
    assert f[0].1 == c.connectorZ && f[1].1 == c.connectorA && f[2].1 == c.proverConnector && f[3].1 == c.connectorD
           && f[4].1 == c.watchtowerChallenge && f[5].1 == c.operatorAck && f[6].1 == c.operatorCommit
           && f[7].1 == c.connectorF;
  }

  /** Validation accepts exactly the configurations whose deadlines are 16-bit heights and
      lie the demanded windows apart. */
  lemma AcceptedIffWellTimed(n: Network, c: TimelockConfig)
    ensures Validate(n, c).Accepted? <==> WellTimed(n, c)
  {
    var b := TimingBudget(n);
    FieldsOf(c, b.reaction);
    GapIsApart("operator_ack", c.watchtowerChallenge, c.operatorAck, b.ActionWindow());
    GapIsApart("operator_commit", Max(c.watchtowerChallenge, c.operatorAck), c.operatorCommit,
               b.ConfirmedActionWindow());
    GapIsApart("connector_d", c.proverConnector, c.connectorD, b.ActionWindow());
    GapIsApart("connector_f", c.operatorCommit, c.connectorF, b.ConfirmedActionWindow());
  }

  /** On every network whose confirmed-action window is positive, the deadlines counted from
      one confirmation are ordered with the whole budget between them. */
  lemma DeadlinesOrdered(n: Network, c: TimelockConfig)
    requires Validate(n, c).Accepted? && !n.Regtest?
    ensures var b := TimingBudget(n);
            && 0 < b.ConfirmedActionWindow() && 0 < b.ActionWindow()
            && b.WatchtowerProofWindow() <= c.watchtowerChallenge
            && c.watchtowerChallenge as int + b.ActionWindow() as int <= c.operatorAck as int
            && c.operatorAck as int + b.ConfirmedActionWindow() as int <= c.operatorCommit as int
            && c.operatorCommit as int + b.ConfirmedActionWindow() as int <= c.connectorF as int
            && c.proverConnector as int + b.ActionWindow() as int <= c.connectorD as int
            && c.connectorF < BLOCKS as uint32 && c.connectorD < BLOCKS as uint32
  {
    AcceptedIffWellTimed(n, c);
  }

  /** Whoever needs fewer blocks than the window, counted from `start`, confirms before
      `deadline`. */
  ghost predicate InTime(start: uint32, deadline: uint32, window: uint32) {
    forall blocks: uint32 | blocks < window :: Confirms(start, blocks) < deadline as int
  }

  function Confirms(start: uint32, blocks: uint32): int { start as int + blocks as int }

  lemma InTimeIffApart(start: uint32, deadline: uint32, window: uint32)
    ensures InTime(start, deadline, window) <==> Apart(start, deadline, window)
  {
    if InTime(start, deadline, window) && window > 0 { assert Confirms(start, window - 1) < deadline as int; }
  }

  /** Everybody acts in time: from the start of a graph the first action of each branch, from
      each deadline the action that must follow it. */
  ghost predicate EverybodyActsInTime(n: Network, c: TimelockConfig) {
    var b := TimingBudget(n);
    && InTime(0, c.connectorA, b.ActionWindow()) && InTime(0, c.proverConnector, b.ActionWindow())
    && InTime(0, c.watchtowerChallenge, b.WatchtowerProofWindow())
    && InTime(c.watchtowerChallenge, c.operatorAck, b.ActionWindow())
    && InTime(c.proverConnector, c.connectorD, b.ActionWindow())
    && InTime(c.watchtowerChallenge, c.operatorCommit, b.ConfirmedActionWindow())
    && InTime(c.operatorAck, c.operatorCommit, b.ConfirmedActionWindow())
    && InTime(c.operatorCommit, c.connectorF, b.ConfirmedActionWindow())
  }

  /** On every network, Regtest included: among configurations with 16-bit values of at least
      the reaction time and the fixed connector-z, validation accepts exactly those in which
      every party that needs fewer blocks than its window confirms before the next deadline. */
  lemma AcceptedIffInTime(n: Network, c: TimelockConfig)
    ensures Validate(n, c).Accepted? <==>
              && (forall i | 0 <= i < |Fields(c)| :: Sixteen(Fields(c)[i].1, TimingBudget(n).reaction))
              && c.connectorZ == DefaultConfig(n).connectorZ && EverybodyActsInTime(n, c)
  {
    var b := TimingBudget(n);
    var action, confirmed := b.ActionWindow(), b.ConfirmedActionWindow();
    AcceptedIffWellTimed(n, c);
    FieldsOf(c, b.reaction);
    FieldsInRange(Fields(c), b.reaction);
    InTimeIffApart(0, c.connectorA, action);
    InTimeIffApart(0, c.proverConnector, action);
    InTimeIffApart(0, c.watchtowerChallenge, b.WatchtowerProofWindow());
    InTimeIffApart(c.watchtowerChallenge, c.operatorAck, action);
    InTimeIffApart(c.proverConnector, c.connectorD, action);
    InTimeIffApart(c.watchtowerChallenge, c.operatorCommit, confirmed);
    InTimeIffApart(c.operatorAck, c.operatorCommit, confirmed);
    InTimeIffApart(c.operatorCommit, c.connectorF, confirmed);
  }

  /** On Regtest the confirmed-action window is zero, and only the two action-window gaps
      are forced. */
  lemma RegtestForcesTwoGaps(c: TimelockConfig)
    ensures Validate(Regtest, c).Accepted? <==>
              && (forall i | 0 <= i < 8 :: 1 <= Fields(c)[i].1 && Fields(c)[i].1 < BLOCKS as uint32)
              && c.connectorZ == 60
              && c.watchtowerChallenge < c.operatorAck && c.proverConnector < c.connectorD
  {
    AcceptedIffWellTimed(Regtest, c);
    var f := Fields(c);
    assert f[0].1 == c.connectorZ && f[1].1 == c.connectorA && f[2].1 == c.proverConnector && f[3].1 == c.connectorD
           && f[4].1 == c.watchtowerChallenge && f[5].1 == c.operatorAck && f[6].1 == c.operatorCommit
           && f[7].1 == c.connectorF;
  }

  /** So Regtest accepts deadlines out of order where the other networks never do. */
  lemma RegtestAcceptsDisorder()
    ensures var c := TimelockConfig(60, 1, 1, 2, 3, 4, 2, 1);
            Validate(Regtest, c).Accepted? && c.connectorF < c.operatorCommit && c.operatorCommit < c.operatorAck
  {
    RegtestForcesTwoGaps(TimelockConfig(60, 1, 1, 2, 3, 4, 2, 1));
  }

  /** The packaged configurations are accepted on their own networks. */
  lemma DefaultsAccepted(n: Network)
    ensures Validate(n, DefaultConfig(n)).Accepted?
  {
    AcceptedIffWellTimed(n, DefaultConfig(n));
  }

  // ------------------------------------------------------------ peg-in buffer

  function AbandonBuffer(n: Network): uint32 { if n.Regtest? then 6 else TimingBudget(n).ConfirmedActionWindow() }

  /** A confirmation broadcast at T0 gets at least the confirmed-action window, and never
      no time at all. */
  lemma AbandonBufferSuffices(n: Network)
    ensures AbandonBuffer(n) >= TimingBudget(n).ConfirmedActionWindow() && AbandonBuffer(n) > 0
  {
  }
}
