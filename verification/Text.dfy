/** Identifiers built as text: decimal numbers and fields joined by ':'. */
module Text {

  predicate Free(c: char, s: string) { forall i | 0 <= i < |s| :: s[i] != c }

  function Digit(d: nat): char
    requires d < 10
  {
    "0123456789"[d]
  }

  function Decimal(n: nat): (s: string)
    ensures |s| > 0 && Free(':', s)
    decreases n
  {
    if n < 10 then [Digit(n)] else Decimal(n / 10) + [Digit(n % 10)]
  }

  /** What a decimal text denotes. */
  function Value(s: string): int {
    if s == [] then 0 else 10 * Value(s[..|s| - 1]) + (s[|s| - 1] as int - '0' as int)
  }

  lemma {:induction false} DecimalDenotes(n: nat)
    ensures Value(Decimal(n)) == n
    decreases n
  {
    if n >= 10 {
      DecimalDenotes(n / 10);
      assert Decimal(n)[..|Decimal(n)| - 1] == Decimal(n / 10);
    }
  }

  lemma DecimalInjective(a: nat, b: nat)
    requires Decimal(a) == Decimal(b)
    ensures a == b
  {
    DecimalDenotes(a);
    DecimalDenotes(b);
  }

  /** Splitting at the last ':' recovers both parts. */
  lemma LastPartInjective(a: string, x: string, b: string, y: string)
    requires a + ":" + x == b + ":" + y && Free(':', x) && Free(':', y)
    ensures a == b && x == y
  {
    var s, t := a + ":" + x, b + ":" + y;
    assert s[|a|] == ':' && t[|b|] == ':';
    assert forall i | |a| < i < |s| :: s[i] == x[i - |a| - 1];
    assert forall i | |b| < i < |t| :: t[i] == y[i - |b| - 1];
    assert |a| == |b|;
    assert a == s[..|a|] && b == t[..|b|] && x == s[|a| + 1..] && y == t[|b| + 1..];
  }

  /** Splitting at the first ':' recovers both parts. */
  lemma FirstPartInjective(a: string, x: string, b: string, y: string)
    requires a + ":" + x == b + ":" + y && Free(':', a) && Free(':', b)
    ensures a == b && x == y
  {
    var s, t := a + ":" + x, b + ":" + y;
    assert s[|a|] == ':' && t[|b|] == ':';
    assert forall i | 0 <= i < |a| :: s[i] == a[i];
    assert forall i | 0 <= i < |b| :: t[i] == b[i];
    assert |a| == |b|;
    assert a == s[..|a|] && b == t[..|b|] && x == s[|a| + 1..] && y == t[|b| + 1..];
  }

  // ---------------------------------------------------------------- counting

  function Count(c: char, s: string): nat {
    if s == [] then 0 else Count(c, s[..|s| - 1]) + if s[|s| - 1] == c then 1 else 0
  }

  lemma {:induction false} CountConcat(c: char, a: string, b: string)
    ensures Count(c, a + b) == Count(c, a) + Count(c, b)
  {
    if b == [] {
      assert a + b == a;
    } else {
      CountConcat(c, a, b[..|b| - 1]);
      assert (a + b)[..|a + b| - 1] == a + b[..|b| - 1];
    }
  }

  lemma CountJoin(a: string, x: string)
    ensures Count(':', a + ":" + x) == Count(':', a) + 1 + Count(':', x)
  {
    CountConcat(':', a + ":", x);
    CountConcat(':', a, ":");
    assert Count(':', ":") == 1;
  }

  lemma {:induction false} FreeIffNone(c: char, s: string)
    ensures Free(c, s) <==> Count(c, s) == 0
  {
    if s != [] {
      var front := s[..|s| - 1];
      FreeIffNone(c, front);
      assert Free(c, s) <==> Free(c, front) && s[|s| - 1] != c;
    }
  }

  /** Cut a text at one of its colons. */
  lemma SplitAtColon(s: string) returns (a: string, b: string)
    requires !Free(':', s)
    ensures s == a + ":" + b && a != s
  {
    var i :| 0 <= i < |s| && s[i] == ':';
    a, b := s[..i], s[i + 1..];
  }

  lemma MoveColon(a: string, b: string, rest: string)
    ensures (a + ":" + b) + ":" + rest == a + ":" + (b + ":" + rest)
  {
  }
}
