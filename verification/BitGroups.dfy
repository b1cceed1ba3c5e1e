/** Regrouping a bit stream into symbols of another width, and segwit addresses over it
    (localnet/tools/keyderive.py). Streams are most significant bit first. */
module BitGroups {
  import opened Arithmetic
  import opened Bech32

  // ------------------------------------------------------------------- streams

  /** The low `n` bits of a number, highest first. */
  function BitsBE(v: nat, n: nat): (b: seq<bool>)
    ensures |b| == n
  {
    if n == 0 then [] else BitsBE(v / 2, n - 1) + [v % 2 == 1]
  }

  function FromBE(b: seq<bool>): nat {
    if b == [] then 0 else 2 * FromBE(b[..|b| - 1]) + if b[|b| - 1] then 1 else 0
  }

  function Flatten(data: seq<nat>, width: nat): seq<bool> {
    if data == [] then [] else BitsBE(data[0], width) + Flatten(data[1..], width)
  }

  function Falses(n: nat): (b: seq<bool>)
    ensures |b| == n
  {
    seq(n, i => false)
  }

  /** Cut a stream into symbols; a rest is padded with zeros or dropped. */
  function Regroup(b: seq<bool>, width: nat, pad: bool): seq<nat>
    requires width > 0
    decreases |b|
  {
    if |b| >= width then [FromBE(b[..width])] + Regroup(b[width..], width, pad)
    else if pad && b != [] then [FromBE(b + Falses(width - |b|))]
    else []
  }

  predicate Within(data: seq<nat>, width: nat) { forall i | 0 <= i < |data| :: data[i] < Pow2(width) }

  lemma {:induction false} FromBEBound(b: seq<bool>)
    ensures FromBE(b) < Pow2(|b|)
  {
    if b != [] { FromBEBound(b[..|b| - 1]); }
  }

  lemma {:induction false} ValueOfBits(v: nat, n: nat)
    requires v < Pow2(n)
    ensures FromBE(BitsBE(v, n)) == v
  {
    if n > 0 {
      ValueOfBits(v / 2, n - 1);
      assert BitsBE(v, n)[..n - 1] == BitsBE(v / 2, n - 1);
    }
  }

  lemma {:induction false} BitsOfValue(b: seq<bool>)
    ensures BitsBE(FromBE(b), |b|) == b
  {
    if b != [] {
      BitsOfValue(b[..|b| - 1]);
      assert FromBE(b) / 2 == FromBE(b[..|b| - 1]);
    }
  }

  // ---------------------------------------------------------------- round trip

  /** How many zeros complete the last symbol. */
  function Padding(n: nat, width: nat): nat
    requires width > 0
  {
    if n % width == 0 then 0 else width - n % width
  }

  lemma {:induction false} FlattenRegrouped(b: seq<bool>, width: nat)
    requires width > 0
    ensures Flatten(Regroup(b, width, true), width) == b + Falses(Padding(|b|, width))
            && Within(Regroup(b, width, true), width)
    decreases |b|
  {
    if |b| >= width {
      FlattenRegrouped(b[width..], width);
      ModStep(|b|, width);
      FirstSymbol(b[..width], b[width..], Regroup(b[width..], width, true), Falses(Padding(|b|, width)), width);
      assert b == b[..width] + b[width..];
    } else if b != [] {
      var padded := b + Falses(width - |b|);
      FirstSymbol(padded, [], [], [], width);
      SmallMod(|b|, width);
    } else {
      SmallMod(0, width);
      assert b + Falses(0) == b;
    }
  }

  lemma FirstSymbol(first: seq<bool>, rest: seq<bool>, symbols: seq<nat>, zeros: seq<bool>, width: nat)
    requires |first| == width && Flatten(symbols, width) == rest + zeros && Within(symbols, width)
    ensures Flatten([FromBE(first)] + symbols, width) == first + rest + zeros
            && Within([FromBE(first)] + symbols, width)
  {
    BitsOfValue(first);
    FromBEBound(first);
    var all := [FromBE(first)] + symbols;
    assert all[1..] == symbols;
    assert first + (rest + zeros) == first + rest + zeros;
    forall i | 0 <= i < |all| ensures all[i] < Pow2(width) { if i > 0 { assert all[i] == symbols[i - 1]; } }
  }

  lemma SmallMod(n: nat, width: nat)
    requires n < width
    ensures n % width == n
  {
  }

  lemma ModStep(n: nat, width: nat)
    requires 0 < width <= n
    ensures (n - width) % width == n % width
  {
    var q, r := n / width, n % width;
    assert n - width == (q - 1) * width + r;
    ModOf(n - width, width, q - 1, r);
  }

  lemma {:induction false} RegroupFlattened(data: seq<nat>, width: nat, extra: nat)
    requires width > 0 && Within(data, width) && extra < width
    ensures Regroup(Flatten(data, width) + Falses(extra), width, false) == data
    decreases |data|
  {
    if data == [] {
      assert Flatten(data, width) + Falses(extra) == Falses(extra);
    } else {
      var b := Flatten(data, width) + Falses(extra);
      var rest := Flatten(data[1..], width) + Falses(extra);
      assert b == BitsBE(data[0], width) + rest;
      assert b[..width] == BitsBE(data[0], width) && b[width..] == rest;
      ValueOfBits(data[0], width);
      RegroupFlattened(data[1..], width, extra);
      assert data == [data[0]] + data[1..];
    }
  }

  function Convert(data: seq<nat>, from: nat, to: nat, pad: bool): seq<nat>
    requires to > 0
  {
    Regroup(Flatten(data, from), to, pad)
  }

  /** Regrouping with padding is undone by regrouping back without it, whenever the
      symbols in between are not wider. */
  lemma ConvertRoundTrip(data: seq<nat>, from: nat, to: nat)
    requires 0 < to <= from && Within(data, from)
    ensures Convert(Convert(data, from, to, true), to, from, false) == data && Within(Convert(data, from, to, true), to)
  {
    var b := Flatten(data, from);
    FlattenRegrouped(b, to);
    RegroupFlattened(data, from, Padding(|b|, to));
  }

  // ------------------------------------------------------------- accumulator form

  lemma {:induction false} Pow2Sum(m: nat, n: nat)
    ensures Pow2(m + n) == Pow2(m) * Pow2(n)
  {
    if m > 0 { Pow2Sum(m - 1, n); }
  }

  lemma Doubled(x: nat, p: nat)
    ensures x * (2 * p) == 2 * (x * p)
  {
  }

  lemma PushArithmetic(acc: nat, q: nat, p: nat, r: nat, f: nat, v: nat)
    requires acc == q * p + r
    ensures acc * f + v == q * (p * f) + (r * f + v)
  {
    assert (q * p + r) * f == (q * p) * f + r * f;
    assert (q * p) * f == q * (p * f);
  }

  lemma CutArithmetic(acc: nat, q: nat, t: nat, l: nat, a: nat, b: nat)
    requires acc == q * (t * l) + (a * l + b)
    ensures acc == (q * t + a) * l + b
  {
    assert (q * t + a) * l == (q * t) * l + a * l;
    assert (q * t) * l == q * (t * l);
  }

  lemma {:induction false} FromBEConcat(a: seq<bool>, b: seq<bool>)
    ensures FromBE(a + b) == FromBE(a) * Pow2(|b|) + FromBE(b)
    decreases |b|
  {
    if b == [] {
      assert a + b == a;
    } else {
      FromBEConcat(a, b[..|b| - 1]);
      assert (a + b)[..|a + b| - 1] == a + b[..|b| - 1];
      Doubled(FromBE(a), Pow2(|b| - 1));
    }
  }

  /** The low `bits` bits of the accumulator are the stream not yet cut. */
  predicate Pending(acc: nat, bits: nat, rest: seq<bool>) { |rest| == bits && acc % Pow2(bits) == FromBE(rest) }

  lemma ProductBound(p: nat, r: nat, f: nat, v: nat)
    requires r < p && v < f
    ensures r * f + v < p * f
  {
    AtLeastOnce(p - r, f);
    assert (p - r) * f == p * f - r * f;
  }

  lemma PushedMod(acc: nat, p: nat, r: nat, f: nat, v: nat)
    requires p > 0 && f > 0 && acc % p == r && v < f
    ensures p * f > 0 && (acc * f + v) % (p * f) == r * f + v
  {
    Quotient(acc, p);
    PushArithmetic(acc, acc / p, p, r, f, v);
    ProductBound(p, r, f, v);
    ModOf(acc * f + v, p * f, acc / p, r * f + v);
  }

  lemma CutMod(acc: nat, t: nat, l: nat, a: nat, b: nat)
    requires t > 0 && l > 0 && t * l > 0 && acc % (t * l) == a * l + b && a < t && b < l
    ensures acc / l % t == a && acc % l == b
  {
    Quotient(acc, t * l);
    var q := acc / (t * l);
    CutArithmetic(acc, q, t, l, a, b);
    ModOf(acc, l, q * t + a, b);
    ModOf(q * t + a, t, q, a);
  }

  lemma Pushed(acc: nat, bits: nat, rest: seq<bool>, v: nat, from: nat)
    requires Pending(acc, bits, rest) && v < Pow2(from)
    ensures Pending(acc * Pow2(from) + v, bits + from, rest + BitsBE(v, from))
  {
    FromBEConcat(rest, BitsBE(v, from));
    ValueOfBits(v, from);
    Pow2Sum(bits, from);
    PushedMod(acc, Pow2(bits), FromBE(rest), Pow2(from), v);
  }

  lemma Cut(acc: nat, bits: nat, rest: seq<bool>, to: nat)
    requires Pending(acc, bits, rest) && to <= bits
    ensures acc / Pow2(bits - to) % Pow2(to) == FromBE(rest[..to])
    ensures Pending(acc, bits - to, rest[to..])
  {
    var a, b := rest[..to], rest[to..];
    assert rest == a + b;
    FromBEConcat(a, b);
    FromBEBound(a);
    FromBEBound(b);
    Pow2Sum(to, bits - to);
    CutMod(acc, Pow2(to), Pow2(bits - to), FromBE(a), FromBE(b));
  }

  lemma Padded(acc: nat, bits: nat, rest: seq<bool>, to: nat)
    requires Pending(acc, bits, rest) && bits < to
    ensures acc * Pow2(to - bits) % Pow2(to) == FromBE(rest + Falses(to - bits))
  {
    FromBEZeros(to - bits);
    FromBEConcat(rest, Falses(to - bits));
    Pow2Sum(bits, to - bits);
    PushedMod(acc, Pow2(bits), FromBE(rest), Pow2(to - bits), 0);
  }

  lemma {:induction false} FromBEZeros(n: nat)
    ensures FromBE(Falses(n)) == 0
  {
    if n > 0 {
      FromBEZeros(n - 1);
      assert Falses(n)[..n - 1] == Falses(n - 1);
    }
  }

  /** Cut full symbols off the accumulator. */
  method CutSymbols(acc: nat, bits: nat, to: nat, ghost rest: seq<bool>, ghost tail: seq<bool>, ghost pad: bool)
    returns (out: seq<nat>, left: nat, ghost remaining: seq<bool>)
    requires to > 0 && Pending(acc, bits, rest)
    ensures Pending(acc, left, remaining) && left < to
    ensures Regroup(rest + tail, to, pad) == out + Regroup(remaining + tail, to, pad)
  {
    out, left, remaining := [], bits, rest;
    while left >= to
      invariant Pending(acc, left, remaining)
      invariant Regroup(rest + tail, to, pad) == out + Regroup(remaining + tail, to, pad)
    {
      Cut(acc, left, remaining, to);
      RegroupFirst(remaining, tail, to, pad);
      left := left - to;
      out := out + [acc / Pow2(left) % Pow2(to)];
      remaining := remaining[to..];
    }
  }

  /** Push one symbol into the accumulator and cut what is full. */
  method TakeSymbol(acc: nat, bits: nat, v: nat, from: nat, to: nat, ghost rest: seq<bool>, ghost tail: seq<bool>,
                    ghost pad: bool)
    returns (pushed: nat, out: seq<nat>, left: nat, ghost remaining: seq<bool>)
    requires to > 0 && Pending(acc, bits, rest) && v < Pow2(from)
    ensures Pending(pushed, left, remaining) && left < to
    ensures Regroup((rest + BitsBE(v, from)) + tail, to, pad) == out + Regroup(remaining + tail, to, pad)
  {
    Pushed(acc, bits, rest, v, from);
    pushed := acc * Pow2(from) + v;
    out, left, remaining := CutSymbols(pushed, bits + from, to, rest + BitsBE(v, from), tail, pad);
  }

  /** The symbol made of a rest, if there is one and it is to be padded. */
  method PadRest(acc: nat, bits: nat, to: nat, ghost rest: seq<bool>, pad: bool) returns (last: seq<nat>)
    requires to > 0 && Pending(acc, bits, rest) && bits < to
    ensures last == Regroup(rest, to, pad)
  {
    if pad && bits > 0 {
      Padded(acc, bits, rest, to);
      last := [acc * Pow2(to - bits) % Pow2(to)];
    } else {
      last := [];
    }
  }

  /** `out`, followed by the symbols of `stream`, is the whole answer. */
  ghost predicate Remains(whole: seq<nat>, out: seq<nat>, stream: seq<bool>, to: nat, pad: bool)
    requires to > 0
  {
    whole == out + Regroup(stream, to, pad)
  }

  lemma RemainsAfter(whole: seq<nat>, out: seq<nat>, stream: seq<bool>, symbols: seq<nat>, later: seq<bool>, to: nat,
                     pad: bool)
    requires to > 0 && Remains(whole, out, stream, to, pad)
             && Regroup(stream, to, pad) == symbols + Regroup(later, to, pad)
    ensures Remains(whole, out + symbols, later, to, pad)
  {
  }

  /** Regroup with an accumulator and a bit count, as the source does. */
  method ConvertBits(data: seq<nat>, from: nat, to: nat, pad: bool) returns (out: seq<nat>)
    requires to > 0 && Within(data, from)
    ensures out == Convert(data, from, to, pad)
  {
    var acc: nat, bits: nat := 0, 0;
    out := [];
    ghost var rest: seq<bool>, stream := [], Flatten(data, from);
    ghost var whole := Convert(data, from, to, pad);
    assert stream == rest + Flatten(data[0..], from) by { assert data[0..] == data; }
    for n := 0 to |data|
      invariant Pending(acc, bits, rest) && bits < to && stream == rest + Flatten(data[n..], from)
      invariant Remains(whole, out, stream, to, pad)
    {
      FlattenNext(data, n, from, rest);
      ghost var tail := Flatten(data[n + 1..], from);
      var symbols;
      acc, symbols, bits, rest := TakeSymbol(acc, bits, data[n], from, to, rest, tail, pad);
      RemainsAfter(whole, out, stream, symbols, rest + tail, to, pad);
      out, stream := out + symbols, rest + tail;
    }
    assert stream == rest;
    var last := PadRest(acc, bits, to, rest, pad);
    out := out + last;
  }

  lemma FlattenNext(data: seq<nat>, n: nat, from: nat, rest: seq<bool>)
    requires n < |data|
    ensures rest + Flatten(data[n..], from) == (rest + BitsBE(data[n], from)) + Flatten(data[n + 1..], from)
  {
    assert data[n..][0] == data[n] && data[n..][1..] == data[n + 1..];
  }

  lemma RegroupFirst(a: seq<bool>, b: seq<bool>, width: nat, pad: bool)
    requires 0 < width <= |a|
    ensures Regroup(a + b, width, pad) == [FromBE(a[..width])] + Regroup(a[width..] + b, width, pad)
  {
    assert (a + b)[..width] == a[..width] && (a + b)[width..] == a[width..] + b;
  }

  // ----------------------------------------------------------- segwit addresses

  predicate ByteString(program: seq<nat>) { forall i | 0 <= i < |program| :: program[i] < 256 }

  lemma Widths()
    ensures Pow2(5) == 32 && Pow2(8) == 256
  {
  }

  /** The 5-bit form of a witness program, behind its version. */
  function SegwitData(version: nat, program: seq<nat>): seq<nat> { [version] + Convert(program, 8, 5, true) }

  lemma SegwitDataIsFiveBit(version: nat, program: seq<nat>)
    requires version < 32 && ByteString(program)
    ensures FiveBit(SegwitData(version, program))
  {
    Widths();
    ConvertRoundTrip(program, 8, 5);
  }

  /** Read version and program back out of an address. */
  function ReadSegwit(s: string): (bool, string, nat, seq<nat>) {
    match Verify(s)
    case Good(hrp, data) => if data == [] then (false, "", 0, [])
      else (true, hrp, data[0], Convert(data[1..], 5, 8, false))
    case Bad => (false, "", 0, [])
  }

  /** A segwit address verifies and carries exactly its prefix, version and program. */
  lemma SegwitRoundTrip(hrp: string, version: nat, program: seq<nat>)
    requires version < 32 && ByteString(program)
    ensures FiveBit(SegwitData(version, program))
    ensures ReadSegwit(Encode(hrp, SegwitData(version, program))) == (true, hrp, version, program)
  {
    SegwitDataIsFiveBit(version, program);
    Widths();
    ConvertRoundTrip(program, 8, 5);
    EncodedVerifies(hrp, SegwitData(version, program));
    assert SegwitData(version, program)[1..] == Convert(program, 8, 5, true);
  }
}
