/** Bech32 addresses (localnet/tools/keyderive.py; BIP 173, section "Bech32"). Checksum
    registers are their thirty bits, least significant first. */
module Bech32 {
  import opened Arithmetic

  const WIDTH := 30

  function Blank(): (b: seq<bool>)
    ensures |b| == WIDTH
  {
    seq(WIDTH, i => false)
  }

  type Bits = b: seq<bool> | |b| == WIDTH witness Blank()

  /** The low thirty bits of a number. */
  function BitsOf(n: nat): Bits { seq(WIDTH, i requires 0 <= i => n / Pow2(i) % 2 == 1) }

  function Xor(a: Bits, b: Bits): Bits { seq(WIDTH, i requires 0 <= i < WIDTH => a[i] != b[i]) }

  function Zero(): Bits { seq(WIDTH, i => false) }
  function One(): Bits { seq(WIDTH, i => i == 0) }

  // ------------------------------------------------------------- the checksum

  const GENERATORS: seq<nat> := [0x3B6A57B2, 0x26508E6D, 0x1EA119FA, 0x3D4233DD, 0x2A1462B3]

  function Generator(k: nat): Bits
    requires k < 5
  {
    BitsOf(GENERATORS[k])
  }

  /** The register shifted by five places, its top five bits dropped. */
  function Shifted(chk: Bits): Bits { seq(WIDTH, i requires 0 <= i < WIDTH => i >= 5 && chk[i - 5]) }

  /** Add generator `k` if top bit `k` of the register was set. */
  function Tapped(r: Bits, chk: Bits, k: nat): Bits
    requires k < 5
  {
    if chk[25 + k] then Xor(r, Generator(k)) else r
  }

  /** The register with the generators of the first `n` top bits added. */
  function TappedUpTo(r: Bits, chk: Bits, n: nat): Bits
    requires n <= 5
  {
    if n == 0 then r else Tapped(TappedUpTo(r, chk, n - 1), chk, n - 1)
  }

  function Step(chk: Bits, v: Bits): Bits { TappedUpTo(Xor(Shifted(chk), v), chk, 5) }

  function Polymod(chk: Bits, values: seq<Bits>): Bits {
    if values == [] then chk else Step(Polymod(chk, values[..|values| - 1]), values[|values| - 1])
  }

  // ---------------------------------------------------------------- linearity

  lemma {:induction false} TappedLinear(r: Bits, s: Bits, a: Bits, b: Bits, n: nat)
    requires n <= 5
    ensures TappedUpTo(Xor(r, s), Xor(a, b), n) == Xor(TappedUpTo(r, a, n), TappedUpTo(s, b, n))
  {
    if n > 0 { TappedLinear(r, s, a, b, n - 1); }
  }

  /** One step is linear over GF(2). */
  lemma StepLinear(a: Bits, b: Bits, v: Bits, w: Bits)
    ensures Step(Xor(a, b), Xor(v, w)) == Xor(Step(a, v), Step(b, w))
  {
    assert Xor(Shifted(Xor(a, b)), Xor(v, w)) == Xor(Xor(Shifted(a), v), Xor(Shifted(b), w));
    TappedLinear(Xor(Shifted(a), v), Xor(Shifted(b), w), a, b, 5);
  }

  function XorAll(vs: seq<Bits>, ws: seq<Bits>): seq<Bits>
    requires |vs| == |ws|
  {
    seq(|vs|, i requires 0 <= i < |vs| => Xor(vs[i], ws[i]))
  }

  lemma {:induction false} PolymodLinear(a: Bits, b: Bits, vs: seq<Bits>, ws: seq<Bits>)
    requires |vs| == |ws|
    ensures Polymod(Xor(a, b), XorAll(vs, ws)) == Xor(Polymod(a, vs), Polymod(b, ws))
    decreases |vs|
  {
    if vs != [] {
      var n := |vs| - 1;
      PolymodLinear(a, b, vs[..n], ws[..n]);
      assert XorAll(vs, ws)[..n] == XorAll(vs[..n], ws[..n]);
      StepLinear(Polymod(a, vs[..n]), Polymod(b, ws[..n]), vs[n], ws[n]);
    }
  }

  lemma {:induction false} PolymodConcat(chk: Bits, vs: seq<Bits>, ws: seq<Bits>)
    ensures Polymod(chk, vs + ws) == Polymod(Polymod(chk, vs), ws)
    decreases |ws|
  {
    if ws == [] {
      assert vs + ws == vs;
    } else {
      PolymodConcat(chk, vs, ws[..|ws| - 1]);
      assert (vs + ws)[..|vs + ws| - 1] == vs + ws[..|ws| - 1];
    }
  }

  // ---------------------------------------------- six digits shift in unreduced

  /** Five bits and no more. */
  predicate Digit(d: Bits) { forall i | 5 <= i < WIDTH :: !d[i] }

  /** The register holds exactly the first `n` digits, the last one lowest. */
  predicate Packs(chk: Bits, ds: seq<Bits>, n: nat)
    requires n <= |ds|
  {
    forall i | 0 <= i < WIDTH :: chk[i] == (i < 5 * n && ds[n - 1 - i / 5][i % 5])
  }

  lemma {:induction false} NoTaps(r: Bits, chk: Bits, n: nat)
    requires n <= 5 && forall i | 25 <= i < WIDTH :: !chk[i]
    ensures TappedUpTo(r, chk, n) == r
  {
    if n > 0 { NoTaps(r, chk, n - 1); }
  }

  lemma PacksOneMore(chk: Bits, ds: seq<Bits>, n: nat)
    requires n < |ds| && n < 6 && Packs(chk, ds, n) && Digit(ds[n])
    ensures Packs(Step(chk, ds[n]), ds, n + 1)
  {
    assert forall i | 25 <= i < WIDTH :: !chk[i];
    NoTaps(Xor(Shifted(chk), ds[n]), chk, 5);
    forall i | 0 <= i < WIDTH ensures Step(chk, ds[n])[i] == (i < 5 * (n + 1) && ds[n - i / 5][i % 5]) {
      if i >= 5 { assert (i - 5) / 5 == i / 5 - 1 && (i - 5) % 5 == i % 5; }
    }
  }

  lemma {:induction false} DigitsPack(ds: seq<Bits>, n: nat)
    requires n <= |ds| && n <= 6 && forall k | 0 <= k < |ds| :: Digit(ds[k])
    ensures Packs(Polymod(Zero(), ds[..n]), ds, n)
  {
    if n > 0 {
      DigitsPack(ds, n - 1);
      assert ds[..n][..n - 1] == ds[..n - 1];
      PacksOneMore(Polymod(Zero(), ds[..n - 1]), ds, n - 1);
    }
  }

  /** Digit `k` of a register, the highest first. */
  function DigitAt(p: Bits, k: nat): Bits
    requires k < 6
  {
    seq(WIDTH, i requires 0 <= i < WIDTH => i < 5 && p[5 * (5 - k) + i])
  }

  function Digits(p: Bits): seq<Bits> { seq(6, k requires 0 <= k < 6 => DigitAt(p, k)) }

  lemma DigitsRestore(p: Bits)
    ensures Polymod(Zero(), Digits(p)) == p
  {
    var ds := Digits(p);
    DigitsPack(ds, 6);
    assert ds[..6] == ds;
    forall i | 0 <= i < WIDTH ensures Polymod(Zero(), ds)[i] == p[i] {
      assert 5 * (i / 5) + i % 5 == i;
      assert ds[5 - i / 5][i % 5] == p[5 * (5 - (5 - i / 5)) + i % 5];
    }
  }

  // ---------------------------------------------------------------- it verifies

  function Zeros(): seq<Bits> { seq(6, i => Zero()) }

  function Checksum(values: seq<Bits>): seq<Bits> { Digits(Xor(Polymod(One(), values + Zeros()), One())) }

  /** The polymod over any values and their checksum is one. */
  lemma ChecksumVerifies(values: seq<Bits>)
    ensures Polymod(One(), values + Checksum(values)) == One()
  {
    var c0, ds := Polymod(One(), values), Checksum(values);
    var p := Xor(Polymod(One(), values + Zeros()), One());
    PolymodConcat(One(), values, Zeros());
    PolymodConcat(One(), values, ds);
    PolymodLinear(c0, Zero(), Zeros(), ds);
    assert Xor(c0, Zero()) == c0;
    assert XorAll(Zeros(), ds) == ds by {
      forall k | 0 <= k < 6 ensures Xor(Zeros()[k], ds[k]) == ds[k] {}
    }
    DigitsRestore(p);
    assert Xor(Polymod(c0, Zeros()), Xor(Polymod(c0, Zeros()), One())) == One();
  }

  /** The checksum register as the source computes it, value by value and bit by bit. */
  method ComputePolymod(values: seq<Bits>) returns (chk: Bits)
    ensures chk == Polymod(One(), values)
  {
    chk := One();
    for n := 0 to |values|
      invariant chk == Polymod(One(), values[..n])
    {
      var top := chk;
      chk := Xor(Shifted(chk), values[n]);
      for k := 0 to 5
        invariant chk == TappedUpTo(Xor(Shifted(top), values[n]), top, k)
      {
        if top[25 + k] { chk := Xor(chk, Generator(k)); }
      }
      assert values[..n + 1][..n] == values[..n];
    }
    assert values[..|values|] == values;
  }

  // -------------------------------------------------------------------- strings

  const CHARSET := "qpzry9x8gf2tvdw0s3jn54khce6mua7l"

  /** The place of a character in the charset, 32 when it has none. */
  function PlaceOf(c: char): nat {
    if c == 'q' then 0 else if c == 'p' then 1 else if c == 'z' then 2 else if c == 'r' then 3
    else if c == 'y' then 4 else if c == '9' then 5 else if c == 'x' then 6 else if c == '8' then 7
    else if c == 'g' then 8 else if c == 'f' then 9 else if c == '2' then 10 else if c == 't' then 11
    else if c == 'v' then 12 else if c == 'd' then 13 else if c == 'w' then 14 else if c == '0' then 15
    else if c == 's' then 16 else if c == '3' then 17 else if c == 'j' then 18 else if c == 'n' then 19
    else if c == '5' then 20 else if c == '4' then 21 else if c == 'k' then 22 else if c == 'h' then 23
    else if c == 'c' then 24 else if c == 'e' then 25 else if c == '6' then 26 else if c == 'm' then 27
    else if c == 'u' then 28 else if c == 'a' then 29 else if c == '7' then 30 else if c == 'l' then 31
    else 32
  }

  lemma CharsetPlaces(d: nat)
    requires d < 32
    ensures PlaceOf(CHARSET[d]) == d && CHARSET[d] != '1'
  {
  }

  predicate FiveBit(data: seq<nat>) { forall i | 0 <= i < |data| :: data[i] < 32 }

  function NatOf(d: Bits): (n: nat)
    ensures n < 32
  {
    (if d[0] then 1 else 0) + (if d[1] then 2 else 0) + (if d[2] then 4 else 0) + (if d[3] then 8 else 0)
    + (if d[4] then 16 else 0)
  }

  lemma FiveBits(a: bool, b: bool, c: bool, d: bool, e: bool, n: nat)
    requires n == (if a then 1 else 0) + (if b then 2 else 0) + (if c then 4 else 0) + (if d then 8 else 0)
                  + (if e then 16 else 0)
    ensures (n % 2 == 1) == a && (n / 2 % 2 == 1) == b && (n / 4 % 2 == 1) == c && (n / 8 % 2 == 1) == d
            && (n / 16 % 2 == 1) == e
  {
  }

  lemma BitsOfNat(d: Bits)
    requires Digit(d)
    ensures BitsOf(NatOf(d)) == d
  {
    var n := NatOf(d);
    FiveBits(d[0], d[1], d[2], d[3], d[4], n);
    assert Pow2(0) == 1 && Pow2(1) == 2 && Pow2(2) == 4 && Pow2(3) == 8 && Pow2(4) == 16 && Pow2(5) == 32;
    assert BitsOf(n)[0] == d[0] && BitsOf(n)[1] == d[1] && BitsOf(n)[2] == d[2] && BitsOf(n)[3] == d[3]
           && BitsOf(n)[4] == d[4];
    forall i | 5 <= i < WIDTH ensures BitsOf(n)[i] == d[i] {
      Pow2Grows(5, i);
      SmallQuotient(n, Pow2(i));
    }
  }

  lemma SmallQuotient(n: nat, p: nat)
    requires n < p
    ensures n / p == 0
  {
  }

  function ToBits(data: seq<nat>): seq<Bits> { seq(|data|, i requires 0 <= i < |data| => BitsOf(data[i])) }
  function ToNats(ds: seq<Bits>): seq<nat> { seq(|ds|, i requires 0 <= i < |ds| => NatOf(ds[i])) }

  /** The prefix as the checksum reads it: high bits, a zero, low bits. */
  function HrpExpand(hrp: string): seq<nat> {
    seq(|hrp|, i requires 0 <= i < |hrp| => hrp[i] as nat / 32) + [0]
    + seq(|hrp|, i requires 0 <= i < |hrp| => hrp[i] as nat % 32)
  }

  function Chars(data: seq<nat>): string
    requires FiveBit(data)
  {
    seq(|data|, i requires 0 <= i < |data| => CHARSET[data[i]])
  }

  function ChecksumDigits(hrp: string, data: seq<nat>): (ds: seq<nat>)
    ensures |ds| == 6 && FiveBit(ds)
  {
    ToNats(Checksum(ToBits(HrpExpand(hrp) + data)))
  }

  function Encode(hrp: string, data: seq<nat>): string
    requires FiveBit(data)
  {
    hrp + "1" + Chars(data + ChecksumDigits(hrp, data))
  }

  /** The position of the last separator, or none. */
  function LastSeparator(s: string): (r: int)
    ensures -1 <= r < |s| && (r >= 0 ==> s[r] == '1') && forall i | r < i < |s| :: s[i] != '1'
  {
    if s == [] then -1 else if s[|s| - 1] == '1' then |s| - 1 else LastSeparator(s[..|s| - 1])
  }

  function Places(s: string): seq<nat> { seq(|s|, i requires 0 <= i < |s| => PlaceOf(s[i])) }

  datatype Parsed = Bad | Good(hrp: string, data: seq<nat>)

  /** BIP 173, section "Bech32": split at the last separator, read the characters, and
      verify the checksum over the expanded prefix and the whole data part. */
  function Verify(s: string): Parsed {
    var at := LastSeparator(s);
    if at < 0 || |s| - at - 1 < 6 then Bad
    else
      var hrp, digits := s[..at], Places(s[at + 1..]);
      if !FiveBit(digits) || Polymod(One(), ToBits(HrpExpand(hrp) + digits)) != One() then Bad
      else Good(hrp, digits[..|digits| - 6])
  }

  lemma CharsRead(data: seq<nat>)
    requires FiveBit(data)
    ensures Places(Chars(data)) == data && forall i | 0 <= i < |data| :: Chars(data)[i] != '1'
  {
    forall i | 0 <= i < |data| ensures Places(Chars(data))[i] == data[i] && Chars(data)[i] != '1' {
      CharsetPlaces(data[i]);
    }
  }

  lemma SeparatorAt(s: string, at: nat)
    requires at < |s| && s[at] == '1' && forall i | at < i < |s| :: s[i] != '1'
    ensures LastSeparator(s) == at
  {
    var r := LastSeparator(s);
    assert r >= at;
  }

  lemma EncodedParts(hrp: string, tail: string)
    requires forall i | 0 <= i < |tail| :: tail[i] != '1'
    ensures var s := hrp + "1" + tail;
            && s[..|hrp|] == hrp && s[|hrp|] == '1' && s[|hrp| + 1..] == tail
            && forall i | |hrp| < i < |s| :: s[i] != '1'
  {
    var s := hrp + "1" + tail;
    assert forall i | |hrp| < i < |s| :: s[i] == tail[i - |hrp| - 1];
  }

  lemma DigitsAreFiveBit(p: Bits)
    ensures ToBits(ToNats(Digits(p))) == Digits(p)
  {
    forall k | 0 <= k < 6 ensures BitsOf(NatOf(Digits(p)[k])) == Digits(p)[k] {
      assert Digit(Digits(p)[k]);
      BitsOfNat(Digits(p)[k]);
    }
  }

  /** Every string built for any prefix and any 5-bit data verifies and reads back. */
  lemma EncodedVerifies(hrp: string, data: seq<nat>)
    requires FiveBit(data)
    ensures Verify(Encode(hrp, data)) == Good(hrp, data)
  {
    var check := ChecksumDigits(hrp, data);
    var all, s := data + check, Encode(hrp, data);
    var values := ToBits(HrpExpand(hrp) + data);
    CharsRead(all);
    EncodedParts(hrp, Chars(all));
    SeparatorAt(s, |hrp|);
    DigitsAreFiveBit(Xor(Polymod(One(), values + Zeros()), One()));
    ChecksumVerifies(values);
    assert ToBits(HrpExpand(hrp) + all) == values + ToBits(check);
    assert all[..|all| - 6] == data;
  }
}
