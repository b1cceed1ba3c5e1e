/** Byte strings fed to hashes: length-prefixed fields (circuits/proof-builder/src/api_auth.rs,
    node/src/aggregates/common.rs) and ':'-joined identities (crates/engine/src). */
module Framing {
  import opened Common
  import opened Text

  const U64 := 0x1_0000_0000_0000_0000

  // ------------------------------------------------------- big-endian lengths

  function BigEndian(n: nat, width: nat): (b: Bytes)
    ensures |b| == width
  {
    if width == 0 then [] else BigEndian(n / 256, width - 1) + [(n % 256) as byte]
  }

  function FromBigEndian(b: Bytes): nat {
    if b == [] then 0 else 256 * FromBigEndian(b[..|b| - 1]) + b[|b| - 1] as int
  }

  function Pow256(width: nat): (p: nat)
    ensures p > 0
  {
    if width == 0 then 1 else 256 * Pow256(width - 1)
  }

  lemma {:induction false} BigEndianRoundTrip(n: nat, width: nat)
    requires n < Pow256(width)
    ensures FromBigEndian(BigEndian(n, width)) == n
  {
    if width > 0 {
      BigEndianRoundTrip(n / 256, width - 1);
      assert BigEndian(n, width)[..width - 1] == BigEndian(n / 256, width - 1);
    }
  }

  lemma EightBytes()
    ensures Pow256(8) == U64
  {
    assert Pow256(4) == 0x1_0000_0000;
  }

  // ------------------------------------------------------------ framed fields

  type Field = f: Bytes | |f| < U64

  /** One field: its length as eight big-endian bytes, then its bytes. */
  function Frame(f: Field): Bytes { BigEndian(|f|, 8) + f }

  function FrameAll(fields: seq<Field>): Bytes {
    if fields == [] then [] else FrameAll(fields[..|fields| - 1]) + Frame(fields[|fields| - 1])
  }

  /** Read the fields back from the front. */
  function Unframe(b: Bytes): (r: (bool, seq<Bytes>))
    decreases |b|
  {
    if b == [] then (true, [])
    else if |b| < 8 || |b| < 8 + FromBigEndian(b[..8]) then (false, [])
    else
      var n := 8 + FromBigEndian(b[..8]);
      var (ok, rest) := Unframe(b[n..]);
      (ok, [b[8..n]] + rest)
  }

  lemma UnframeFirst(f: Field, rest: Bytes)
    ensures Unframe(Frame(f) + rest) == (Unframe(rest).0, [f] + Unframe(rest).1)
  {
    var b := Frame(f) + rest;
    EightBytes();
    BigEndianRoundTrip(|f|, 8);
    assert b[..8] == BigEndian(|f|, 8);
    assert b[8..8 + |f|] == f && b[8 + |f|..] == rest;
  }

  lemma {:induction false} FrameAllHead(fields: seq<Field>)
    requires fields != []
    ensures FrameAll(fields) == Frame(fields[0]) + FrameAll(fields[1..])
  {
    if |fields| > 1 {
      var front := fields[..|fields| - 1];
      FrameAllHead(front);
      assert fields[1..][..|fields| - 2] == front[1..];
    }
  }

  /** Framing can be read back, whatever the fields hold. */
  lemma {:induction false} FramingRoundTrip(fields: seq<Field>)
    ensures Unframe(FrameAll(fields)) == (true, fields)
    decreases |fields|
  {
    if fields != [] {
      FrameAllHead(fields);
      UnframeFirst(fields[0], FrameAll(fields[1..]));
      FramingRoundTrip(fields[1..]);
      assert fields == [fields[0]] + fields[1..];
    }
  }

  /** Two field lists feed the same bytes to the hash only if they are the same list. */
  lemma FramingInjective(a: seq<Field>, b: seq<Field>)
    requires FrameAll(a) == FrameAll(b)
    ensures a == b
  {
    FramingRoundTrip(a);
    FramingRoundTrip(b);
  }

  /** A hasher, by the bytes it was fed. */
  class Hasher {
    var fed: Bytes

    constructor ()
      ensures fed == []
    {
      fed := [];
    }

    method Update(b: Bytes)
      modifies this
      ensures fed == old(fed) + b
    {
      fed := fed + b;
    }

    method HashField(f: Field)
      modifies this
      ensures fed == old(fed) + Frame(f)
    {
      Update(BigEndian(|f|, 8));
      Update(f);
    }

    method HashFields(fields: seq<Field>)
      modifies this
      ensures fed == old(fed) + FrameAll(fields)
    {
      for i := 0 to |fields|
        invariant fed == old(fed) + FrameAll(fields[..i])
      {
        HashField(fields[i]);
        assert fields[..i + 1][..i] == fields[..i];
      }
      assert fields[..|fields|] == fields;
    }
  }

  /** What a delivery id hashes: a domain, then the framed sender, recipient and payload hash. */
  function DeliveryPreimage(domain: Bytes, sender: Field, recipient: Field, payloadHash: Field): Bytes {
    domain + FrameAll([sender, recipient, payloadHash])
  }

  lemma DeliveryPreimageInjective(domain: Bytes, s: Field, r: Field, h: Field, s2: Field, r2: Field, h2: Field)
    requires DeliveryPreimage(domain, s, r, h) == DeliveryPreimage(domain, s2, r2, h2)
    ensures s == s2 && r == r2 && h == h2
  {
    var a, b := FrameAll([s, r, h]), FrameAll([s2, r2, h2]);
    assert a == DeliveryPreimage(domain, s, r, h)[|domain|..] && b == DeliveryPreimage(domain, s2, r2, h2)[|domain|..];
    FramingInjective([s, r, h], [s2, r2, h2]);
    assert [s, r, h][0] == [s2, r2, h2][0] && [s, r, h][1] == [s2, r2, h2][1] && [s, r, h][2] == [s2, r2, h2][2];
  }

  // ---------------------------------------------------------- joined identities

  /** What names a job: its aggregate, phase and action, and the hash of its parameters. */
  datatype JobName = JobName(kind: string, id: string, phase: string, action: string, hash: string) {
    predicate ColonFree() { Free(':', kind) && Free(':', id) && Free(':', phase) && Free(':', action) }

    /** What a stable job id hashes: the parts joined by ':'. */
    function Identity(): string { kind + ":" + (id + ":" + (phase + ":" + (action + ":" + hash))) }
  }

  /** Without ':' inside the names of either the identity determines all parts. */
  lemma ColonFreeInjective(j: JobName, k: JobName)
    requires j.Identity() == k.Identity() && j.ColonFree() && k.ColonFree()
    ensures j == k
  {
    FirstPartInjective(j.kind, j.id + ":" + (j.phase + ":" + (j.action + ":" + j.hash)),
                       k.kind, k.id + ":" + (k.phase + ":" + (k.action + ":" + k.hash)));
    FirstPartInjective(j.id, j.phase + ":" + (j.action + ":" + j.hash), k.id,
                       k.phase + ":" + (k.action + ":" + k.hash));
    FirstPartInjective(j.phase, j.action + ":" + j.hash, k.phase, k.action + ":" + k.hash);
    FirstPartInjective(j.action, j.hash, k.action, k.hash);
  }

  lemma IdentityCount(j: JobName)
    ensures Count(':', j.Identity())
            == 4 + Count(':', j.kind) + Count(':', j.id) + Count(':', j.phase) + Count(':', j.action)
               + Count(':', j.hash)
  {
    CountJoin(j.kind, j.id + ":" + (j.phase + ":" + (j.action + ":" + j.hash)));
    CountJoin(j.id, j.phase + ":" + (j.action + ":" + j.hash));
    CountJoin(j.phase, j.action + ":" + j.hash);
    CountJoin(j.action, j.hash);
  }

  /** Hashes of one length are the same end of the same identity. */
  lemma SameHash(j: JobName, k: JobName)
    requires j.Identity() == k.Identity() && |j.hash| == |k.hash|
    ensures j.hash == k.hash
  {
    var s := j.Identity();
    assert s[|s| - |j.hash|..] == j.hash;
    assert k.Identity()[|s| - |k.hash|..] == k.hash;
  }

  /** One job without ':' in its names is enough. */
  lemma JobIdentityInjective(j: JobName, k: JobName)
    requires j.Identity() == k.Identity() && |j.hash| == |k.hash| && j.ColonFree()
    ensures j == k
  {
    SameHash(j, k);
    IdentityCount(j);
    IdentityCount(k);
    FreeIffNone(':', j.kind); FreeIffNone(':', j.id); FreeIffNone(':', j.phase); FreeIffNone(':', j.action);
    FreeIffNone(':', k.kind); FreeIffNone(':', k.id); FreeIffNone(':', k.phase); FreeIffNone(':', k.action);
    ColonFreeInjective(j, k);
  }

  /** A ':' inside any of the four names gives another job the same identity. */
  lemma JobIdentityAmbiguous(j: JobName) returns (k: JobName)
    requires !j.ColonFree()
    ensures k != j && k.hash == j.hash && k.Identity() == j.Identity()
  {
    if !Free(':', j.kind) {
      var a, b := SplitAtColon(j.kind);
      k := j.(kind := a, id := b + ":" + j.id);
      MoveColon(a, b, j.id + ":" + (j.phase + ":" + (j.action + ":" + j.hash)));
      MoveColon(b, j.id, j.phase + ":" + (j.action + ":" + j.hash));
    } else if !Free(':', j.id) {
      var a, b := SplitAtColon(j.id);
      k := j.(kind := j.kind + ":" + a, id := b);
      var rest := j.phase + ":" + (j.action + ":" + j.hash);
      MoveColon(a, b, rest);
      MoveColon(j.kind, a, b + ":" + rest);
    } else if !Free(':', j.phase) {
      var a, b := SplitAtColon(j.phase);
      k := j.(id := j.id + ":" + a, phase := b);
      var rest := j.action + ":" + j.hash;
      MoveColon(a, b, rest);
      MoveColon(j.id, a, b + ":" + rest);
    } else {
      var a, b := SplitAtColon(j.action);
      k := j.(phase := j.phase + ":" + a, action := b);
      MoveColon(a, b, j.hash);
      MoveColon(j.phase, a, b + ":" + j.hash);
    }
  }

  /** No other job with a hash of this length has the identity. */
  ghost predicate IdentifiesAlone(j: JobName) {
    forall k: JobName | |k.hash| == |j.hash| && k.Identity() == j.Identity() :: k == j
  }

  /** With hashes of one length a job's identity is its own exactly when none of its four
      names contains ':'. */
  lemma IdentityIsOwnIff(j: JobName)
    ensures IdentifiesAlone(j) <==> j.ColonFree()
  {
    if j.ColonFree() {
      forall k: JobName | |k.hash| == |j.hash| && k.Identity() == j.Identity() ensures k == j {
        JobIdentityInjective(j, k);
      }
    } else {
      var k := JobIdentityAmbiguous(j);
    }
  }

  /** The inbox key of a job result. */
  function ResultKey(job: string, generation: nat): string { "job-result:" + job + ":" + Decimal(generation) }

  /** It determines the job and the generation. */
  lemma ResultKeyInjective(a: string, i: nat, b: string, k: nat)
    requires ResultKey(a, i) == ResultKey(b, k)
    ensures a == b && i == k
  {
    LastPartInjective("job-result:" + a, Decimal(i), "job-result:" + b, Decimal(k));
    assert a == ("job-result:" + a)[11..] && b == ("job-result:" + b)[11..];
    DecimalInjective(i, k);
  }
}
