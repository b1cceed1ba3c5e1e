/** Canonical JSON of authenticated request bodies (circuits/proof-builder/src/api_auth.rs). */
module CanonicalJson {
  import opened KeyOrder

  /** An object keeps its entries in the order it holds them; its keys are distinct. */
  datatype Value =
    | Null
    | Bool(b: bool)
    | Number(digits: string)
    | Text(text: string)
    | Array(items: seq<Value>)
    | Object(entries: seq<Entry>)

  datatype Entry = Entry(key: string, value: Value)

  function KeyOf(e: Entry): string { e.key }

  /** Keys sorted at every depth, arrays left in order. */
  function Sorted(v: Value): Value
    decreases v, 1
  {
    match v
    case Array(items) => Array(seq(|items|, i requires 0 <= i < |items| => Sorted(items[i])))
    case Object(_) => Object(SortBy(KeyOf, SortedValues(v)))
    case _ => v
  }

  /** The entries of an object with their values sorted. */
  function SortedValues(v: Value): (es: seq<Entry>)
    requires v.Object?
    ensures |es| == |v.entries|
    ensures forall i | 0 <= i < |es| :: es[i].key == v.entries[i].key
    decreases v, 0
  {
    seq(|v.entries|, i requires 0 <= i < |v.entries| =>
      Entry(v.entries[i].key, (assert v.entries[i] < v; Sorted(v.entries[i].value))))
  }

  const NUMBER_CHARS := "0123456789+-.eE"

  predicate NumberText(digits: string) { digits != [] && forall i | 0 <= i < |digits| :: digits[i] in NUMBER_CHARS }

  predicate WellFormed(v: Value)
    decreases v
  {
    match v
    case Array(items) => forall i | 0 <= i < |items| :: WellFormed(items[i])
    case Number(digits) => NumberText(digits)
    case Object(es) => Distinct(KeyOf, es) && forall i | 0 <= i < |es| :: (assert es[i] < v; WellFormed(es[i].value))
    case _ => true
  }

  predicate SameKeys(es: seq<Entry>, fs: seq<Entry>) {
    && |es| == |fs| && (forall i | 0 <= i < |es| :: IndexOf(KeyOf, fs, es[i].key) < |fs|)
    && (forall k | 0 <= k < |fs| :: IndexOf(KeyOf, es, fs[k].key) < |es|)
  }

  /** Two values differ at most by the order of object keys, at any depth. */
  predicate SameUpToOrder(a: Value, b: Value)
    decreases a
  {
    match a
    case Array(items) =>
      b.Array? && |b.items| == |items| && forall i | 0 <= i < |items| :: SameUpToOrder(items[i], b.items[i])
    case Object(es) =>
      && b.Object? && SameKeys(es, b.entries)
      && forall i | 0 <= i < |es| ::
         (assert es[i] < a; SameUpToOrder(es[i].value, b.entries[IndexOf(KeyOf, b.entries, es[i].key)].value))
    case _ => a == b
  }

  // ---------------------------------------------------- what sorting entries does

  ghost predicate SameEntries(a: seq<Entry>, b: seq<Entry>) {
    |a| == |b| && (forall e :: e in a <==> e in b)
  }

  /** With distinct keys, the same entries are the same multiset. */
  lemma SameMultiset(a: seq<Entry>, b: seq<Entry>)
    requires Distinct(KeyOf, a) && Distinct(KeyOf, b) && SameEntries(a, b)
    ensures multiset(a) == multiset(b)
  {
    forall e ensures multiset(a)[e] == multiset(b)[e] {
      if e in a {
        EntryOnce(a, e);
        EntryOnce(b, e);
      }
    }
  }

  lemma EntryOnce(es: seq<Entry>, e: Entry)
    requires Distinct(KeyOf, es) && e in es
    ensures multiset(es)[e] == 1
  {
    var k :| 0 <= k < |es| && es[k] == e;
    forall i | 0 <= i < |es| && i != k ensures es[i] != es[k] {
      assert KeyOf(es[i]) != KeyOf(es[k]);
    }
    Once(es, k);
  }

  lemma SortedSame(es: seq<Entry>)
    requires Distinct(KeyOf, es)
    ensures var out := SortBy(KeyOf, es);
            && Ordered(KeyOf, out) && Distinct(KeyOf, out) && SameEntries(out, es) && multiset(out) == multiset(es)
  {
    var out := SortBy(KeyOf, es);
    SortSorts(KeyOf, es);
    DistinctAnyOrder(KeyOf, es, out);
    forall e ensures e in out <==> e in es {
      assert e in multiset(out) <==> e in multiset(es);
    }
  }

  // ------------------------------------------------------------------- theorems

  /** Sorting changes only the order of keys. */
  lemma {:induction false} SortingOnlyReorders(v: Value)
    requires WellFormed(v)
    ensures SameUpToOrder(v, Sorted(v)) && WellFormed(Sorted(v))
    decreases v
  {
    match v
    case Array(items) =>
      forall i | 0 <= i < |items| ensures SameUpToOrder(items[i], Sorted(v).items[i])
          && WellFormed(Sorted(v).items[i]) {
        SortingOnlyReorders(items[i]);
      }
    case Object(es) =>
      forall i | 0 <= i < |es| ensures SameUpToOrder(es[i].value, Sorted(es[i].value))
          && WellFormed(Sorted(es[i].value)) {
        assert es[i] < v;
        SortingOnlyReorders(es[i].value);
      }
      ObjectReorders(v);
    case _ =>
  }

  /** With distinct keys, a key stands in one place only. */
  lemma IndexIs(es: seq<Entry>, k: nat)
    requires Distinct(KeyOf, es) && k < |es|
    ensures IndexOf(KeyOf, es, es[k].key) == k
  {
    var i := IndexOf(KeyOf, es, es[k].key);
    assert i <= k;
  }

  ghost predicate Paired(es: seq<Entry>, fs: seq<Entry>, x: seq<Entry>, y: seq<Entry>)
    requires |x| == |es| && |y| == |fs|
  {
    SameKeys(es, fs) && forall i | 0 <= i < |x| :: x[i] == y[IndexOf(KeyOf, fs, es[i].key)]
  }

  lemma SameArePaired(es: seq<Entry>, fs: seq<Entry>, x: seq<Entry>, y: seq<Entry>)
    requires Distinct(KeyOf, es) && Distinct(KeyOf, fs) && |x| == |es| && |y| == |fs| && SameEntries(x, y)
    requires (forall i | 0 <= i < |x| :: x[i].key == es[i].key) && (forall k | 0 <= k < |y| :: y[k].key == fs[k].key)
    ensures Paired(es, fs, x, y)
  {
    forall i | 0 <= i < |x| ensures IndexOf(KeyOf, fs, es[i].key) < |fs| && x[i] == y[IndexOf(KeyOf, fs, es[i].key)] {
      assert x[i] in y;
      var k :| 0 <= k < |y| && y[k] == x[i];
      IndexIs(fs, k);
    }
    forall k | 0 <= k < |y| ensures IndexOf(KeyOf, es, fs[k].key) < |es| {
      assert y[k] in x;
      var i :| 0 <= i < |x| && x[i] == y[k];
      IndexIs(es, i);
    }
  }

  lemma PairedAreSame(es: seq<Entry>, fs: seq<Entry>, x: seq<Entry>, y: seq<Entry>)
    requires Distinct(KeyOf, es) && Distinct(KeyOf, fs) && |x| == |es| && |y| == |fs| && Paired(es, fs, x, y)
    ensures SameEntries(x, y)
  {
    forall e | e in y ensures e in x {
      var k :| 0 <= k < |y| && y[k] == e;
      var i := IndexOf(KeyOf, es, fs[k].key);
      IndexIs(fs, k);
      assert x[i] == e;
    }
  }

  /** Lists with the same entries are those paired by key. */
  lemma PairedByKey(es: seq<Entry>, fs: seq<Entry>, x: seq<Entry>, y: seq<Entry>)
    requires Distinct(KeyOf, es) && Distinct(KeyOf, fs) && |x| == |es| && |y| == |fs|
    requires (forall i | 0 <= i < |x| :: x[i].key == es[i].key) && (forall k | 0 <= k < |y| :: y[k].key == fs[k].key)
    ensures SameEntries(x, y) <==> Paired(es, fs, x, y)
  {
    if SameEntries(x, y) { SameArePaired(es, fs, x, y); }
    if Paired(es, fs, x, y) { PairedAreSame(es, fs, x, y); }
  }

  lemma ObjectReorders(v: Value)
    requires v.Object? && Distinct(KeyOf, v.entries)
    requires forall i | 0 <= i < |v.entries| ::
               SameUpToOrder(v.entries[i].value, Sorted(v.entries[i].value)) && WellFormed(Sorted(v.entries[i].value))
    ensures SameUpToOrder(v, Sorted(v)) && WellFormed(Sorted(v))
  {
    var es, mapped, out := v.entries, SortedValues(v), Sorted(v).entries;
    SortedSame(mapped);
    PairedByKey(es, out, mapped, out);
    forall i | 0 <= i < |es| ensures SameUpToOrder(es[i].value, out[IndexOf(KeyOf, out, es[i].key)].value) {
      assert out[IndexOf(KeyOf, out, es[i].key)] == mapped[i];
    }
    SortedWellFormed(v);
  }

  lemma SortedWellFormed(v: Value)
    requires v.Object? && Distinct(KeyOf, v.entries)
    requires forall i | 0 <= i < |v.entries| :: WellFormed(Sorted(v.entries[i].value))
    ensures WellFormed(Sorted(v))
  {
    var mapped, out := SortedValues(v), Sorted(v).entries;
    SortedSame(mapped);
    forall k | 0 <= k < |out| ensures WellFormed(out[k].value) {
      assert out[k] in mapped;
      var i :| 0 <= i < |mapped| && mapped[i] == out[k];
    }
  }

  /** Two bodies have the same canonical form exactly when they differ only by the order
      of object keys, at any depth. */
  lemma {:induction false} CanonicalIff(a: Value, b: Value)
    requires WellFormed(a) && WellFormed(b)
    ensures Sorted(a) == Sorted(b) <==> SameUpToOrder(a, b)
    decreases a
  {
    if a.Array? && b.Array? && |a.items| == |b.items| {
      forall i | 0 <= i < |a.items| ensures Sorted(a.items[i]) == Sorted(b.items[i]) <==>
          SameUpToOrder(a.items[i], b.items[i]) {
        CanonicalIff(a.items[i], b.items[i]);
      }
      ArraysCanonical(a, b);
    } else if a.Array? && b.Array? {
      assert |Sorted(a).items| == |a.items| && |Sorted(b).items| == |b.items|;
    } else if a.Object? && b.Object? {
      forall i, k | 0 <= i < |a.entries| && 0 <= k < |b.entries|
        ensures Sorted(a.entries[i].value) == Sorted(b.entries[k].value) <==>
                SameUpToOrder(a.entries[i].value, b.entries[k].value)
      {
        assert a.entries[i] < a;
        CanonicalIff(a.entries[i].value, b.entries[k].value);
      }
      ObjectsCanonical(a, b);
    }
  }

  lemma ArraysCanonical(a: Value, b: Value)
    requires a.Array? && b.Array? && |a.items| == |b.items|
    requires forall i | 0 <= i < |a.items| :: Sorted(a.items[i]) == Sorted(b.items[i]) <==>
             SameUpToOrder(a.items[i], b.items[i])
    ensures Sorted(a) == Sorted(b) <==> SameUpToOrder(a, b)
  {
    var x, y := Sorted(a).items, Sorted(b).items;
    assert forall i | 0 <= i < |x| :: x[i] == Sorted(a.items[i]) && y[i] == Sorted(b.items[i]);
    if SameUpToOrder(a, b) { assert x == y; }
  }

  lemma ObjectsCanonical(a: Value, b: Value)
    requires a.Object? && b.Object? && Distinct(KeyOf, a.entries) && Distinct(KeyOf, b.entries)
    requires forall i, k | 0 <= i < |a.entries| && 0 <= k < |b.entries| ::
               Sorted(a.entries[i].value) == Sorted(b.entries[k].value) <==>
                 SameUpToOrder(a.entries[i].value, b.entries[k].value)
    ensures Sorted(a) == Sorted(b) <==> SameUpToOrder(a, b)
  {
    SortedIffSameEntries(a, b);
    PairedByKey(a.entries, b.entries, SortedValues(a), SortedValues(b));
    if SameKeys(a.entries, b.entries) { PairedIffSame(a, b); }
  }

  lemma SortedIffSameEntries(a: Value, b: Value)
    requires a.Object? && b.Object? && Distinct(KeyOf, a.entries) && Distinct(KeyOf, b.entries)
    ensures Sorted(a) == Sorted(b) <==> SameEntries(SortedValues(a), SortedValues(b))
  {
    var x, y := SortedValues(a), SortedValues(b);
    SortedSame(x);
    SortedSame(y);
    if SameEntries(x, y) {
      SameMultiset(x, y);
      SortedIsUnique(KeyOf, SortBy(KeyOf, x), SortBy(KeyOf, y));
    }
  }

  lemma PairedIffSame(a: Value, b: Value)
    requires a.Object? && b.Object? && SameKeys(a.entries, b.entries)
    requires forall i, k | 0 <= i < |a.entries| && 0 <= k < |b.entries| ::
               Sorted(a.entries[i].value) == Sorted(b.entries[k].value) <==>
                 SameUpToOrder(a.entries[i].value, b.entries[k].value)
    ensures Paired(a.entries, b.entries, SortedValues(a), SortedValues(b)) <==> SameUpToOrder(a, b)
  {
    var x, y := SortedValues(a), SortedValues(b);
    forall i | 0 <= i < |x|
      ensures x[i] == y[IndexOf(KeyOf, b.entries, a.entries[i].key)]
              <==> SameUpToOrder(a.entries[i].value, b.entries[IndexOf(KeyOf, b.entries, a.entries[i].key)].value)
    {
      var k := IndexOf(KeyOf, b.entries, a.entries[i].key);
      assert x[i] == Entry(a.entries[i].key, Sorted(a.entries[i].value))
             && y[k] == Entry(b.entries[k].key, Sorted(b.entries[k].value));
    }
  }

  /** Sorting a canonical body changes nothing. */
  lemma SortingIsIdempotent(v: Value)
    requires WellFormed(v)
    ensures Sorted(Sorted(v)) == Sorted(v)
  {
    SortingOnlyReorders(v);
    CanonicalIff(v, Sorted(v));
  }

  // ------------------------------------------------------------------- in place

  /** Sort a value as the source does: take the entries out, order them, sort each value
      and put it back. */
  method SortValue(v: Value) returns (r: Value)
    requires WellFormed(v)
    ensures r == Sorted(v)
    decreases v, 1
  {
    match v
    case Array(_) => r := SortItems(v);
    case Object(_) => r := SortObject(v);
    case _ => r := v;
  }

  method SortItems(v: Value) returns (r: Value)
    requires v.Array? && WellFormed(v)
    ensures r == Sorted(v)
    decreases v, 0
  {
    var out: seq<Value> := [];
    for i := 0 to |v.items|
      invariant |out| == i && forall k | 0 <= k < i :: out[k] == Sorted(v.items[k])
    {
      var item := SortValue(v.items[i]);
      out := out + [item];
    }
    r := Array(out);
  }

  method SortObject(v: Value) returns (r: Value)
    requires v.Object? && WellFormed(v)
    ensures r == Sorted(v)
    decreases v, 0
  {
    var ordered := SortBy(KeyOf, v.entries);
    SortedSame(v.entries);
    var out: seq<Entry> := [];
    for i := 0 to |ordered|
      invariant |out| == i
      invariant forall k | 0 <= k < i :: out[k] == Entry(ordered[k].key, Sorted(ordered[k].value))
    {
      EntryIsSmaller(v, ordered[i]);
      var value := SortValue(ordered[i].value);
      out := out + [Entry(ordered[i].key, value)];
    }
    OrderThenSort(v, ordered, out);
    r := Object(out);
  }

  lemma EntryIsSmaller(v: Value, e: Entry)
    requires v.Object? && WellFormed(v) && e in v.entries
    ensures e < v && WellFormed(e.value)
  {
    var i :| 0 <= i < |v.entries| && v.entries[i] == e;
    assert v.entries[i] < v;
  }

  /** Ordering the entries before or after sorting their values gives the same object. */
  lemma OrderThenSort(v: Value, ordered: seq<Entry>, out: seq<Entry>)
    requires v.Object? && Distinct(KeyOf, v.entries) && Ordered(KeyOf, ordered) && Distinct(KeyOf, ordered)
    requires SameEntries(ordered, v.entries)
    requires |out| == |ordered| && forall k | 0 <= k < |out| ::
             out[k] == Entry(ordered[k].key, Sorted(ordered[k].value))
    ensures Object(out) == Sorted(v)
  {
    var mapped := SortedValues(v);
    SortedSame(mapped);
    forall e | e in out ensures e in mapped {
      var k :| 0 <= k < |out| && out[k] == e;
      assert ordered[k] in v.entries;
      var i :| 0 <= i < |v.entries| && v.entries[i] == ordered[k];
      assert mapped[i] == e;
    }
    forall e | e in mapped ensures e in out {
      var i :| 0 <= i < |mapped| && mapped[i] == e;
      assert v.entries[i] in ordered;
      var k :| 0 <= k < |ordered| && ordered[k] == v.entries[i];
      assert out[k] == e;
    }
    assert Ordered(KeyOf, out) && Distinct(KeyOf, out) by {
      assert forall k | 0 <= k < |out| :: KeyOf(out[k]) == KeyOf(ordered[k]);
    }
    SameMultiset(out, mapped);
    SortedIsUnique(KeyOf, out, SortBy(KeyOf, mapped));
  }
}
