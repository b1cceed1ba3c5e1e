/** Text keys in lexicographic order, and a stable sort by key. */
module KeyOrder {

  predicate Less(a: string, b: string) {
    if b == [] then false
    else if a == [] then true
    else a[0] < b[0] || (a[0] == b[0] && Less(a[1..], b[1..]))
  }

  lemma {:induction false} LessTotal(a: string, b: string)
    ensures Less(a, b) || Less(b, a) || a == b
    ensures !(Less(a, b) && Less(b, a)) && (a == b ==> !Less(a, b))
  {
    if a != [] && b != [] && a[0] == b[0] {
      LessTotal(a[1..], b[1..]);
      assert a == [a[0]] + a[1..] && b == [b[0]] + b[1..];
    }
  }

  lemma {:induction false} LessTransitive(a: string, b: string, c: string)
    requires Less(a, b) && Less(b, c)
    ensures Less(a, c)
  {
    if a != [] && a[0] == b[0] && b[0] == c[0] { LessTransitive(a[1..], b[1..], c[1..]); }
  }

  /** `a <= b` and `b <= c` give `a <= c`. */
  lemma NotLessTransitive(a: string, b: string, c: string)
    requires !Less(b, a) && !Less(c, b)
    ensures !Less(c, a)
  {
    LessTotal(a, b);
    LessTotal(b, c);
    LessTotal(a, c);
    if a != b && b != c { LessTransitive(a, b, c); }
  }

  // ------------------------------------------------------------------- sorting

  /** Insert before the first element with a larger key. */
  function Insert<E>(key: E -> string, e: E, es: seq<E>): seq<E> {
    if es == [] then [e]
    else if Less(key(e), key(es[0])) then [e] + es
    else [es[0]] + Insert(key, e, es[1..])
  }

  function SortBy<E>(key: E -> string, es: seq<E>): seq<E> {
    if es == [] then [] else Insert(key, es[|es| - 1], SortBy(key, es[..|es| - 1]))
  }

  ghost predicate Ordered<E>(key: E -> string, es: seq<E>) {
    forall i, k | 0 <= i < k < |es| :: !Less(key(es[k]), key(es[i]))
  }

  predicate Distinct<E>(key: E -> string, es: seq<E>) {
    forall i, k | 0 <= i < k < |es| :: key(es[i]) != key(es[k])
  }

  lemma SameKey<E>(key: E -> string, es: seq<E>, i: nat, k: nat)
    requires Distinct(key, es) && i < |es| && k < |es| && key(es[i]) == key(es[k])
    ensures i == k
  {
  }

  lemma DistinctAppend<E>(key: E -> string, es: seq<E>, e: E)
    requires Distinct(key, es) && forall i | 0 <= i < |es| :: key(es[i]) != key(e)
    ensures Distinct(key, es + [e])
  {
  }

  lemma OrderedPrepend<E>(key: E -> string, e: E, es: seq<E>)
    requires Ordered(key, es) && (es == [] || !Less(key(es[0]), key(e)))
    ensures Ordered(key, [e] + es)
  {
    forall i, k | 0 <= i < k < |es| + 1 ensures !Less(key(([e] + es)[k]), key(([e] + es)[i])) {
      if i == 0 && k > 1 { NotLessTransitive(key(e), key(es[0]), key(es[k - 1])); }
    }
  }

  lemma {:induction false} InsertKeeps<E>(key: E -> string, e: E, es: seq<E>)
    requires Ordered(key, es)
    ensures var out := Insert(key, e, es);
            && Ordered(key, out) && multiset(out) == multiset(es) + multiset{e}
            && |out| == |es| + 1 && (out[0] == e || (es != [] && out[0] == es[0]))
  {
    if es == [] {
    } else if Less(key(e), key(es[0])) {
      LessTotal(key(e), key(es[0]));
      OrderedPrepend(key, e, es);
    } else {
      assert es == [es[0]] + es[1..];
      InsertKeeps(key, e, es[1..]);
      OrderedPrepend(key, es[0], Insert(key, e, es[1..]));
    }
  }

  /** The sort orders by key and keeps every element. */
  lemma {:induction false} SortSorts<E>(key: E -> string, es: seq<E>)
    ensures Ordered(key, SortBy(key, es)) && multiset(SortBy(key, es)) == multiset(es) && |SortBy(key, es)| == |es|
  {
    if es != [] {
      SortSorts(key, es[..|es| - 1]);
      InsertKeeps(key, es[|es| - 1], SortBy(key, es[..|es| - 1]));
      assert es == es[..|es| - 1] + [es[|es| - 1]];
    }
  }

  // ----------------------------------------------------------------- searching

  /** Where a key stands first, `|es|` when it is missing. */
  function IndexOf<E>(key: E -> string, es: seq<E>, k: string): (i: nat)
    ensures i <= |es| && (i < |es| ==> key(es[i]) == k) && forall m | 0 <= m < i :: key(es[m]) != k
  {
    if es == [] || key(es[0]) == k then 0 else 1 + IndexOf(key, es[1..], k)
  }

  // ---------------------------------------------------------- sorted is unique

  lemma Once<E>(es: seq<E>, k: nat)
    requires k < |es| && forall i | 0 <= i < |es| && i != k :: es[i] != es[k]
    ensures multiset(es)[es[k]] == 1
  {
    assert es == es[..k] + [es[k]] + es[k + 1..];
    assert es[k] !in es[..k] && es[k] !in es[k + 1..];
  }

  lemma Twice<E>(es: seq<E>, i: nat, k: nat)
    requires i < k < |es| && es[i] == es[k]
    ensures multiset(es)[es[i]] >= 2
  {
    assert es == es[..k] + [es[k]] + es[k + 1..];
    assert es[..k][i] == es[i];
    assert es[i] in multiset(es[..k]);
  }

  /** Whether keys repeat does not depend on the order. */
  lemma DistinctAnyOrder<E>(key: E -> string, a: seq<E>, b: seq<E>)
    requires multiset(a) == multiset(b) && Distinct(key, a)
    ensures Distinct(key, b) && |a| == |b|
  {
    assert |multiset(a)| == |a| && |multiset(b)| == |b|;
    forall i, k | 0 <= i < k < |b| ensures key(b[i]) != key(b[k]) {
      assert b[i] in multiset(a) && b[k] in multiset(a);
      var m :| 0 <= m < |a| && a[m] == b[i];
      var n :| 0 <= n < |a| && a[n] == b[k];
      if m == n {
        Twice(b, i, k);
        Once(a, m);
      }
    }
  }

  lemma TailOf<E>(key: E -> string, a: seq<E>)
    requires a != [] && Ordered(key, a) && Distinct(key, a)
    ensures Ordered(key, a[1..]) && Distinct(key, a[1..]) && multiset(a[1..]) == multiset(a) - multiset{a[0]}
  {
    assert a == [a[0]] + a[1..];
  }

  lemma HeadIsLeast<E>(key: E -> string, es: seq<E>, i: nat)
    requires Ordered(key, es) && i < |es|
    ensures !Less(key(es[i]), key(es[0]))
  {
    LessTotal(key(es[i]), key(es[0]));
  }

  lemma FirstIsFirst<E>(key: E -> string, a: seq<E>, b: seq<E>)
    requires Ordered(key, a) && Ordered(key, b) && multiset(a) == multiset(b) && Distinct(key, a) && a != [] && b != []
    ensures a[0] == b[0]
  {
    assert b[0] in multiset(a) && a[0] in multiset(b);
    var i :| 0 <= i < |a| && a[i] == b[0];
    var k :| 0 <= k < |b| && b[k] == a[0];
    LessTotal(key(a[0]), key(b[0]));
    HeadIsLeast(key, a, i);
    HeadIsLeast(key, b, k);
  }

  /** Sorted sequences of the same elements with distinct keys are equal. */
  lemma {:induction false} SortedIsUnique<E>(key: E -> string, a: seq<E>, b: seq<E>)
    requires Ordered(key, a) && Ordered(key, b) && multiset(a) == multiset(b) && Distinct(key, a)
    ensures a == b
  {
    DistinctAnyOrder(key, a, b);
    if a != [] {
      FirstIsFirst(key, a, b);
      TailOf(key, a);
      TailOf(key, b);
      SortedIsUnique(key, a[1..], b[1..]);
      assert a == [a[0]] + a[1..] && b == [b[0]] + b[1..];
    }
  }
}
