/** Base58 text of byte strings (localnet/tools/keyderive.py). */
module Base58 {
  import opened Arithmetic
  import opened Common

  // ------------------------------------------------------------ positional numbers

  predicate Below(ds: seq<nat>, base: nat) { forall i | 0 <= i < |ds| :: ds[i] < base }

  function Value(ds: seq<nat>, base: nat): nat {
    if ds == [] then 0 else base * Value(ds[..|ds| - 1], base) + ds[|ds| - 1]
  }

  /** The shortest digits of a number; zero has none. */
  function Digits(n: nat, base: nat): (ds: seq<nat>)
    requires base >= 2
    ensures Below(ds, base) && (ds == [] <==> n == 0)
  {
    if n == 0 then [] else Digits(n / base, base) + [n % base]
  }

  function Zeros(n: nat): (z: seq<nat>)
    ensures |z| == n
  {
    seq(n, i => 0)
  }

  function LeadingZeros(ds: seq<nat>): (n: nat)
    ensures n <= |ds| && (forall i | 0 <= i < n :: ds[i] == 0) && (n < |ds| ==> ds[n] != 0)
  {
    if ds == [] || ds[0] != 0 then 0 else 1 + LeadingZeros(ds[1..])
  }

  function Stripped(ds: seq<nat>): seq<nat> { ds[LeadingZeros(ds)..] }

  lemma {:induction false} ValueOfDigits(n: nat, base: nat)
    requires base >= 2
    ensures Value(Digits(n, base), base) == n
  {
    if n > 0 {
      ValueOfDigits(n / base, base);
      assert Digits(n, base)[..|Digits(n, base)| - 1] == Digits(n / base, base);
      Quotient(n, base);
      Commute(n / base, base);
    }
  }

  lemma Commute(a: nat, b: nat)
    ensures a * b == b * a
  {
  }

  lemma {:induction false} DigitsStartNonZero(n: nat, base: nat)
    requires base >= 2 && n > 0
    ensures Digits(n, base)[0] != 0
  {
    if n / base > 0 { DigitsStartNonZero(n / base, base); } else { SmallIsItsRest(n, base); }
  }

  lemma SmallIsItsRest(n: nat, base: nat)
    requires base >= 2 && n / base == 0
    ensures n % base == n
  {
  }

  lemma Split(q: nat, base: nat, r: nat)
    requires base >= 2 && r < base
    ensures (base * q + r) / base == q && (base * q + r) % base == r
  {
    assert base * q == q * base;
    ModOf(base * q + r, base, q, r);
  }

  /** Digits without a leading zero are the digits of their value. */
  lemma {:induction false} DigitsOfValue(ds: seq<nat>, base: nat)
    requires base >= 2 && Below(ds, base) && (ds == [] || ds[0] != 0)
    ensures Digits(Value(ds, base), base) == ds
  {
    if ds != [] {
      var front, last := ds[..|ds| - 1], ds[|ds| - 1];
      DigitsOfValue(front, base);
      Split(Value(front, base), base, last);
      PositiveValue(ds, base);
      assert ds == front + [last];
    }
  }

  lemma {:induction false} PositiveValue(ds: seq<nat>, base: nat)
    requires base >= 2 && ds != [] && ds[0] != 0
    ensures Value(ds, base) > 0
  {
    if |ds| > 1 {
      PositiveValue(ds[..|ds| - 1], base);
      assert base * Value(ds[..|ds| - 1], base) > 0;
    } else {
      assert ds[..0] == [];
    }
  }

  lemma {:induction false} ZerosAddNothing(n: nat, ds: seq<nat>, base: nat)
    ensures Value(Zeros(n) + ds, base) == Value(ds, base)
    decreases n + |ds|
  {
    if ds != [] {
      ZerosAddNothing(n, ds[..|ds| - 1], base);
      assert (Zeros(n) + ds)[..n + |ds| - 1] == Zeros(n) + ds[..|ds| - 1];
    } else if n > 0 {
      ZerosAddNothing(n - 1, ds, base);
      assert (Zeros(n) + ds)[..n - 1] == Zeros(n - 1) + ds;
    } else {
      assert Zeros(0) + ds == [];
    }
  }

  lemma StripRestores(ds: seq<nat>)
    ensures Zeros(LeadingZeros(ds)) + Stripped(ds) == ds
  {
    var n := LeadingZeros(ds);
    assert ds == ds[..n] + ds[n..];
    assert Zeros(n) == ds[..n];
  }

  lemma LeadingZerosOf(n: nat, ds: seq<nat>)
    requires ds == [] || ds[0] != 0
    ensures LeadingZeros(Zeros(n) + ds) == n
  {
    var all := Zeros(n) + ds;
    var k := LeadingZeros(all);
    assert forall i | 0 <= i < n :: all[i] == 0;
    assert k >= n;
    assert n < |all| ==> all[n] == ds[0];
  }

  // ------------------------------------------------------------------ transcoding

  /** Rewrite digits in another base, leading zeros kept one for one. */
  function Transcode(ds: seq<nat>, from: nat, to: nat): (r: seq<nat>)
    requires to >= 2
    ensures Below(r, to)
  {
    Zeros(LeadingZeros(ds)) + Digits(Value(ds, from), to)
  }

  /** Rewriting back gives the digits one started from, leading zeros included. */
  lemma TranscodeRoundTrip(ds: seq<nat>, from: nat, to: nat)
    requires from >= 2 && to >= 2 && Below(ds, from)
    ensures Transcode(Transcode(ds, from, to), to, from) == ds
  {
    var z, n := LeadingZeros(ds), Value(ds, from);
    var middle := Digits(n, to);
    if n > 0 { DigitsStartNonZero(n, to); }
    LeadingZerosOf(z, middle);
    ZerosAddNothing(z, middle, to);
    ValueOfDigits(n, to);
    StripRestores(ds);
    ZerosAddNothing(z, Stripped(ds), from);
    DigitsOfValue(Stripped(ds), from);
  }

  // -------------------------------------------------------------------- alphabet

  const ALPHABET := "123456789" + "ABCDEFGH" + "JKLMN" + "PQRSTUVWXYZ" + "abcdefghijk" + "mnopqrstuvwxyz"

  function Symbol(d: nat): char
    requires d < 58
  {
    ALPHABET[d]
  }

  /** The alphabet is six stretches of consecutive characters: no zero, no capital I or O,
      no small l. */
  lemma Stretches(d: nat)
    requires d < 58
    ensures Symbol(d) as int
            == d + (if d < 9 then '1' as int
                    else if d < 17 then 'A' as int - 9
                    else if d < 22 then 'J' as int - 17
                    else if d < 33 then 'P' as int - 22
                    else if d < 44 then 'a' as int - 33
                    else 'm' as int - 44)
  {
    if d < 22 { LowStretches(d); } else { HighStretches(d); }
  }

  lemma LowStretches(d: nat)
    requires d < 22
    ensures Symbol(d) as int
            == d + if d < 9 then '1' as int else if d < 17 then 'A' as int - 9 else 'J' as int - 17
  {
    var a, b, c := "123456789", "ABCDEFGH", "JKLMN";
    if d < 9 { assert ALPHABET[d] == a[d]; }
    else if d < 17 { assert ALPHABET[d] == b[d - 9]; }
    else { assert ALPHABET[d] == c[d - 17]; }
  }

  lemma HighStretches(d: nat)
    requires 22 <= d < 58
    ensures Symbol(d) as int
            == d + if d < 33 then 'P' as int - 22 else if d < 44 then 'a' as int - 33 else 'm' as int - 44
  {
    var e, f, g := "PQRSTUVWXYZ", "abcdefghijk", "mnopqrstuvwxyz";
    if d < 33 { assert ALPHABET[d] == e[d - 22]; }
    else if d < 44 { assert ALPHABET[d] == f[d - 33]; }
    else { assert ALPHABET[d] == g[d - 44]; }
  }

  function DigitOf(c: char): Option<nat> {
    var n := c as int;
    if '1' <= c <= '9' then Some(n - '1' as int)
    else if 'A' <= c <= 'H' then Some(n - 'A' as int + 9)
    else if 'J' <= c <= 'N' then Some(n - 'J' as int + 17)
    else if 'P' <= c <= 'Z' then Some(n - 'P' as int + 22)
    else if 'a' <= c <= 'k' then Some(n - 'a' as int + 33)
    else if 'm' <= c <= 'z' then Some(n - 'm' as int + 44)
    else None
  }

  lemma SymbolDigit(d: nat)
    requires d < 58
    ensures DigitOf(Symbol(d)) == Some(d)
  {
    Stretches(d);
  }

  lemma DigitSymbol(c: char)
    requires DigitOf(c).Some?
    ensures DigitOf(c).value < 58 && Symbol(DigitOf(c).value) == c
  {
    Stretches(DigitOf(c).value);
  }

  function Symbols(ds: seq<nat>): string
    requires Below(ds, 58)
  {
    seq(|ds|, i requires 0 <= i < |ds| => Symbol(ds[i]))
  }

  predicate InAlphabet(s: string) { forall i | 0 <= i < |s| :: DigitOf(s[i]).Some? }

  function DigitsOf(s: string): (ds: seq<nat>)
    requires InAlphabet(s)
  {
    seq(|s|, i requires 0 <= i < |s| => DigitOf(s[i]).value)
  }

  // -------------------------------------------------------------- encode and decode

  function Encode(bytes: seq<nat>): string { Symbols(Transcode(bytes, 256, 58)) }

  /** A character outside the alphabet is an error. */
  function Decode(s: string): Option<seq<nat>> {
    if InAlphabet(s) then Some(Transcode(DigitsOf(s), 58, 256)) else None
  }

  lemma SymbolsRead(ds: seq<nat>)
    requires Below(ds, 58)
    ensures InAlphabet(Symbols(ds)) && DigitsOf(Symbols(ds)) == ds
  {
    forall i | 0 <= i < |ds| ensures DigitOf(Symbols(ds)[i]) == Some(ds[i]) { SymbolDigit(ds[i]); }
  }

  lemma DigitsWrite(s: string)
    requires InAlphabet(s)
    ensures Below(DigitsOf(s), 58) && Symbols(DigitsOf(s)) == s
  {
    forall i | 0 <= i < |s| ensures DigitsOf(s)[i] < 58 && Symbol(DigitsOf(s)[i]) == s[i] { DigitSymbol(s[i]); }
  }

  /** Decoding undoes encoding, leading zero bytes included. */
  lemma DecodeEncode(bytes: seq<nat>)
    requires Below(bytes, 256)
    ensures Decode(Encode(bytes)) == Some(bytes)
  {
    SymbolsRead(Transcode(bytes, 256, 58));
    TranscodeRoundTrip(bytes, 256, 58);
  }

  /** Encoding undoes decoding wherever decoding succeeds, which is exactly on texts over
      the alphabet. */
  lemma EncodeDecode(s: string)
    ensures Decode(s).Some? <==> InAlphabet(s)
    ensures Decode(s).Some? ==> Below(Decode(s).value, 256) && Encode(Decode(s).value) == s
  {
    if InAlphabet(s) {
      DigitsWrite(s);
      TranscodeRoundTrip(DigitsOf(s), 58, 256);
    }
  }

  // ------------------------------------------------------------------- in loops

  method B58Encode(bytes: seq<nat>) returns (s: string)
    requires Below(bytes, 256)
    ensures s == Encode(bytes)
  {
    var n := Value(bytes, 256);
    var out: seq<nat> := [];
    while n > 0
      invariant Below(out, 58) && Digits(n, 58) + out == Digits(Value(bytes, 256), 58)
    {
      out := [n % 58] + out;
      n := n / 58;
    }
    var ones := 0;
    while ones < |bytes| && bytes[ones] == 0
      invariant ones <= LeadingZeros(bytes)
    {
      ones := ones + 1;
    }
    assert Zeros(ones) + out == Transcode(bytes, 256, 58);
    s := Symbols(Zeros(ones) + out);
  }

  method B58Decode(s: string) returns (r: Option<seq<nat>>)
    ensures r == Decode(s)
  {
    var n := 0;
    var digits: seq<nat> := [];
    for i := 0 to |s|
      invariant InAlphabet(s[..i]) && digits == DigitsOf(s[..i]) && n == Value(digits, 58)
    {
      var d := DigitOf(s[i]);
      if d.None? { return None; }
      n := n * 58 + d.value;
      digits := digits + [d.value];
      assert digits[..i] == DigitsOf(s[..i]);
    }
    assert s[..|s|] == s;
    r := Some(Zeros(LeadingZeros(digits)) + Digits(n, 256));
  }
}
