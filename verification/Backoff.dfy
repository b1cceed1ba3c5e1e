/** Retry delays (crates/engine/src/config.rs). */
module EngineBackoff {
  import opened Arithmetic

  const INT64_MAX := 0x7fff_ffff_ffff_ffff
  const INT64_MIN := -0x8000_0000_0000_0000
  const MAX_SHIFT := 30

  newtype int64 = x: int | INT64_MIN <= x <= INT64_MAX

  datatype Backoff = Steps(steps: seq<int64>) | Doubling(base: int64, cap: int64)

  function SaturatingMul(a: int, b: int): int {
    if a * b > INT64_MAX then INT64_MAX else if a * b < INT64_MIN then INT64_MIN else a * b
  }

  function Min(a: int, b: int): int { if a < b then a else b }

  /** Delay in seconds before attempt number `attempt` is retried; attempts count from 1. */
  function Delay(b: Backoff, attempt: int): int {
    var n := if attempt < 1 then 1 else attempt;
    match b
    case Steps(steps) => if steps == [] then 0 else steps[Min(n - 1, |steps| - 1)] as int
    case Doubling(base, cap) => Min(SaturatingMul(base as int, Pow2(Min(n - 1, MAX_SHIFT))), cap as int)
  }

  lemma ScaledGrows(base: int, m: nat, n: nat)
    requires m <= n && base > 0
    ensures base * Pow2(m) <= base * Pow2(n)
  {
    Pow2Grows(m, n);
    assert base * (Pow2(n) - Pow2(m)) >= 0;
  }

  lemma {:induction false} Pow2Doubles(n: nat)
    ensures Pow2(n + 1) == 2 * Pow2(n)
  {
  }

  /** The delay as documented: the base doubled once per attempt, capped. */
  function Ideal(base: int, cap: int, attempt: nat): int
    requires attempt >= 1
  {
    Min(cap, base * Pow2(attempt - 1))
  }

  lemma DelayIsIdeal(base: int64, cap: int64, attempt: nat)
    requires base > 0 && attempt >= 1 && cap as int <= base as int * Pow2(MAX_SHIFT)
    ensures Delay(Doubling(base, cap), attempt) == Ideal(base as int, cap as int, attempt)
  {
    if attempt - 1 > MAX_SHIFT {
      ScaledGrows(base as int, MAX_SHIFT, attempt - 1);
    }
  }

  lemma CapOutOfReach(base: int, cap: int, p: int)
    requires base > 0 && p > 0 && base * p < cap <= INT64_MAX
    ensures Min(SaturatingMul(base, p), cap) < Min(cap, base * (2 * p))
  {
    var x := base * p;
    assert base * (2 * p) == 2 * x;
  }

  /** The shift stops at 30: a cap beyond base * 2^30 is never reached. */
  lemma DelayStopsShort(base: int64, cap: int64)
    requires base > 0 && cap as int > base as int * Pow2(MAX_SHIFT)
    ensures Delay(Doubling(base, cap), MAX_SHIFT + 2) < Ideal(base as int, cap as int, MAX_SHIFT + 2)
  {
    Pow2Doubles(MAX_SHIFT);
    CapOutOfReach(base as int, cap as int, Pow2(MAX_SHIFT));
  }

  /** Doubling is exact for every attempt if and only if the cap is within base * 2^30. */
  lemma DoublingExactIff(base: int64, cap: int64)
    requires base > 0
    ensures (forall n: nat | n >= 1 :: Delay(Doubling(base, cap), n) == Ideal(base as int, cap as int, n))
            <==> cap as int <= base as int * Pow2(MAX_SHIFT)
  {
    if cap as int <= base as int * Pow2(MAX_SHIFT) {
      forall n: nat | n >= 1 ensures Delay(Doubling(base, cap), n) == Ideal(base as int, cap as int, n) {
        DelayIsIdeal(base, cap, n);
      }
    } else {
      DelayStopsShort(base, cap);
    }
  }

  ghost predicate Positive(b: Backoff) { forall n: int :: Delay(b, n) > 0 }

  lemma DoublingPositive(base: int64, cap: int64, n: int)
    requires base > 0 && cap > 0
    ensures Delay(Doubling(base, cap), n) > 0
  {
    var shift: nat := Min((if n < 1 then 1 else n) - 1, MAX_SHIFT);
    ScaledGrows(base as int, 0, shift);
  }

  lemma StepsPositive(steps: seq<int64>)
    ensures Positive(Steps(steps)) <==> steps != [] && forall i | 0 <= i < |steps| :: steps[i] > 0
  {
    if Positive(Steps(steps)) {
      assert Delay(Steps(steps), 1) > 0;
      forall i | 0 <= i < |steps| ensures steps[i] > 0 { assert Delay(Steps(steps), i + 1) == steps[i] as int; }
    }
  }

  /** Which backoffs never retry at once. */
  lemma PositiveIff(b: Backoff)
    ensures Positive(b) <==> (match b
                              case Steps(steps) => steps != [] && forall i | 0 <= i < |steps| :: steps[i] > 0
                              case Doubling(base, cap) => base > 0 && cap > 0)
  {
    match b
    case Steps(steps) => StepsPositive(steps);
    case Doubling(base, cap) =>
      if base > 0 && cap > 0 {
        forall n: int ensures Delay(b, n) > 0 { DoublingPositive(base, cap, n); }
      } else {
        NotPositive(base, cap);
      }
  }

  lemma NotPositive(base: int64, cap: int64)
    requires base <= 0 || cap <= 0
    ensures Delay(Doubling(base, cap), 1) <= 0
  {
    assert Pow2(0) == 1;
  }
}
