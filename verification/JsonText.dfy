/** The compact JSON text of a value, and that it determines the value
    (circuits/proof-builder/src/api_auth.rs, canonical_json_bytes). */
module JsonText {
  import opened CanonicalJson

  // --------------------------------------------------------------------- writing

  const HEX := "0123456789abcdef"

  /** The letter of a short escape. */
  function Letter(c: char): (l: char)
    ensures l == '-' || l in {'"', '\\', 'b', 't', 'n', 'f', 'r'}
  {
    if c == '"' then '"'
    else if c == '\\' then '\\'
    else if c as int == 8 then 'b'
    else if c as int == 9 then 't'
    else if c as int == 10 then 'n'
    else if c as int == 12 then 'f'
    else if c as int == 13 then 'r'
    else '-'
  }

  /** One character inside a JSON string. */
  function Escape(c: char): string {
    if Letter(c) != '-' then ['\\', Letter(c)]
    else if (c as int) < 0x20 then ['\\', 'u', '0', '0', HEX[c as int / 16], HEX[c as int % 16]]
    else [c]
  }

  /** The text of a string up to its closing quote, followed by `rest`. */
  function Characters(s: string, rest: string): string {
    if s == [] then ['"'] + rest else Escape(s[0]) + Characters(s[1..], rest)
  }

  function Quoted(s: string, rest: string): string { ['"'] + Characters(s, rest) }

  /** The text of a value, followed by `rest`. */
  function Write(v: Value, rest: string): string
    decreases v, 1, 0
  {
    match v
    case Null => "null" + rest
    case Bool(b) => (if b then "true" else "false") + rest
    case Number(digits) => digits + rest
    case Text(text) => Quoted(text, rest)
    case Array(_) => ['['] + Items(v, 0, rest)
    case Object(_) => ['{'] + Members(v, 0, rest)
  }

  function Separated(i: nat, text: string): string { if i > 0 then [','] + text else text }

  /** The items of an array from `i` on, its bracket, and `rest`. */
  function Items(v: Value, i: nat, rest: string): string
    requires v.Array? && i <= |v.items|
    decreases v, 0, |v.items| - i
  {
    if i == |v.items| then [']'] + rest
    else Separated(i, Write(v.items[i], Items(v, i + 1, rest)))
  }

  /** The members of an object from `i` on, its brace, and `rest`. */
  function Members(v: Value, i: nat, rest: string): string
    requires v.Object? && i <= |v.entries|
    decreases v, 0, |v.entries| - i
  {
    if i == |v.entries| then ['}'] + rest
    else
      assert v.entries[i] < v;
      Separated(i, Quoted(v.entries[i].key, [':'] + Write(v.entries[i].value, Members(v, i + 1, rest))))
  }

  /** What is hashed for a body. */
  function CanonicalText(v: Value): string { Write(Sorted(v), []) }

  // -------------------------------------------------------------- reading strings

  lemma SplitAt(a: string, b: string, x: string, y: string)
    requires a + x == b + y && |a| == |b|
    ensures a == b && x == y
  {
    assert a == (a + x)[..|a|] && b == (b + y)[..|b|] && x == (a + x)[|a|..] && y == (b + y)[|b|..];
  }

  lemma HexDiffers(a: nat, b: nat)
    requires a < 16 && b < 16 && HEX[a] == HEX[b]
    ensures a == b
  {
  }

  lemma LettersDiffer(c: char, d: char)
    requires Letter(c) == Letter(d) && Letter(c) != '-'
    ensures c == d
  {
  }

  /** An escape stands for one character only. */
  lemma EscapesDiffer(c: char, d: char)
    requires Escape(c) == Escape(d)
    ensures c == d
  {
    if |Escape(c)| == 2 {
      assert Escape(c)[1] == Letter(c) && Escape(d)[1] == Letter(d);
      LettersDiffer(c, d);
    } else if |Escape(c)| == 6 {
      assert Escape(c)[4] == HEX[c as int / 16] && Escape(d)[4] == HEX[d as int / 16];
      assert Escape(c)[5] == HEX[c as int % 16] && Escape(d)[5] == HEX[d as int % 16];
      HexDiffers(c as int / 16, d as int / 16);
      HexDiffers(c as int % 16, d as int % 16);
    } else {
      assert Escape(c)[0] == c && Escape(d)[0] == d;
    }
  }

  /** The first two characters tell how long an escape is. */
  lemma EscapeLength(c: char)
    ensures |Escape(c)| > 0 && Escape(c)[0] != '"'
    ensures Escape(c)[0] != '\\' ==> |Escape(c)| == 1
    ensures Escape(c)[0] == '\\' ==> |Escape(c)| == if Escape(c)[1] == 'u' then 6 else 2
  {
  }

  /** The first character can be read off whatever follows. */
  lemma EscapeUnique(c: char, d: char, x: string, y: string)
    requires Escape(c) + x == Escape(d) + y
    ensures c == d && x == y
  {
    EscapeLength(c);
    EscapeLength(d);
    var s, t := Escape(c) + x, Escape(d) + y;
    assert s[0] == Escape(c)[0] && t[0] == Escape(d)[0];
    if s[0] == '\\' { assert s[1] == Escape(c)[1] && t[1] == Escape(d)[1]; }
    SplitAt(Escape(c), Escape(d), x, y);
    EscapesDiffer(c, d);
  }

  lemma CharactersStart(s: string, rest: string)
    ensures Characters(s, rest) != [] && (Characters(s, rest)[0] == '"' <==> s == [])
  {
    if s != [] { EscapeLength(s[0]); }
  }

  lemma {:induction false} CharactersUnique(a: string, b: string, x: string, y: string)
    requires Characters(a, x) == Characters(b, y)
    ensures a == b && x == y
    decreases |a|
  {
    CharactersStart(a, x);
    CharactersStart(b, y);
    if a == [] {
      SplitAt(['"'], ['"'], x, y);
    } else {
      EscapeUnique(a[0], b[0], Characters(a[1..], x), Characters(b[1..], y));
      CharactersUnique(a[1..], b[1..], x, y);
      assert a == [a[0]] + a[1..] && b == [b[0]] + b[1..];
    }
  }

  lemma QuotedUnique(a: string, b: string, x: string, y: string)
    requires Quoted(a, x) == Quoted(b, y)
    ensures a == b && x == y
  {
    SplitAt(['"'], ['"'], Characters(a, x), Characters(b, y));
    CharactersUnique(a, b, x, y);
  }

  // --------------------------------------------------------------- reading values

  /** What can follow a value: nothing, or something that is no part of a number. */
  predicate Ends(x: string) { x == [] || x[0] !in NUMBER_CHARS }

  lemma NumberUnique(a: string, b: string, x: string, y: string)
    requires NumberText(a) && NumberText(b) && Ends(x) && Ends(y) && a + x == b + y
    ensures a == b && x == y
  {
    var s, t := a + x, b + y;
    assert forall i | 0 <= i < |a| :: s[i] == a[i];
    assert forall i | 0 <= i < |b| :: t[i] == b[i];
    assert |a| < |s| ==> s[|a|] == x[0];
    assert |b| < |t| ==> t[|b|] == y[0];
    SplitAt(a, b, x, y);
  }

  /** The character a value starts with; a number starts as it is written. */
  function FirstOf(v: Value): char
    requires WellFormed(v)
  {
    match v
    case Null => 'n'
    case Bool(b) => if b then 't' else 'f'
    case Text(_) => '"'
    case Array(_) => '['
    case Object(_) => '{'
    case Number(digits) => digits[0]
  }

  lemma WriteStarts(v: Value, rest: string)
    requires WellFormed(v)
    ensures Write(v, rest) != [] && Write(v, rest)[0] == FirstOf(v)
  {
    match v
    case Null => assert ("null" + rest)[0] == 'n';
    case Bool(b) => assert ("true" + rest)[0] == 't' && ("false" + rest)[0] == 'f';
    case _ =>
  }

  lemma NoNumberChar(c: char)
    requires c in ['n', 't', 'f', '"', '[', '{', ']', '}', ',']
    ensures c !in NUMBER_CHARS
  {
    assert |NUMBER_CHARS| == 15;
  }

  /** Values that start alike are of one kind. */
  lemma FirstTellsKind(a: Value, b: Value)
    requires WellFormed(a) && WellFormed(b) && FirstOf(a) == FirstOf(b)
    ensures a.Null? <==> b.Null?
    ensures a.Bool? <==> b.Bool?
    ensures a.Bool? ==> a == b
    ensures a.Number? <==> b.Number?
    ensures a.Text? <==> b.Text?
    ensures a.Array? <==> b.Array?
    ensures a.Object? <==> b.Object?
  {
    if a.Number? != b.Number? { NoNumberChar(if a.Number? then FirstOf(b) else FirstOf(a)); }
  }

  /** A value never starts like the end of an array. */
  lemma NoBracket(v: Value)
    requires WellFormed(v)
    ensures FirstOf(v) != ']'
  {
    NoNumberChar(']');
  }

  lemma ItemsStart(v: Value, i: nat, rest: string)
    requires v.Array? && WellFormed(v) && i <= |v.items|
    ensures Items(v, i, rest) != [] && (Items(v, i, rest)[0] == ']' <==> i == |v.items|)
    ensures i > 0 ==> Ends(Items(v, i, rest))
  {
    if i < |v.items| {
      WriteStarts(v.items[i], Items(v, i + 1, rest));
      NoBracket(v.items[i]);
    }
    NoNumberChar(']');
    NoNumberChar(',');
  }

  lemma MembersStart(v: Value, i: nat, rest: string)
    requires v.Object? && i <= |v.entries|
    ensures Members(v, i, rest) != [] && (Members(v, i, rest)[0] == '}' <==> i == |v.entries|)
    ensures i > 0 ==> Ends(Members(v, i, rest))
  {
    NoNumberChar('}');
    NoNumberChar(',');
  }

  lemma SeparatedUnique(i: nat, x: string, y: string)
    requires Separated(i, x) == Separated(i, y)
    ensures x == y
  {
    if i > 0 { SplitAt([','], [','], x, y); }
  }

  lemma {:induction false} ItemsUnique(a: Value, b: Value, i: nat, x: string, y: string)
    requires a.Array? && b.Array? && WellFormed(a) && WellFormed(b) && i <= |a.items| && i <= |b.items|
    requires Items(a, i, x) == Items(b, i, y)
    ensures a.items[i..] == b.items[i..] && x == y
    decreases a, 0, |a.items| - i
  {
    ItemsStart(a, i, x);
    ItemsStart(b, i, y);
    if i == |a.items| {
      SplitAt([']'], [']'], x, y);
    } else {
      var p, q := Items(a, i + 1, x), Items(b, i + 1, y);
      SeparatedUnique(i, Write(a.items[i], p), Write(b.items[i], q));
      ItemsStart(a, i + 1, x);
      ItemsStart(b, i + 1, y);
      WriteUnique(a.items[i], b.items[i], p, q);
      ItemsUnique(a, b, i + 1, x, y);
      assert a.items[i..] == [a.items[i]] + a.items[i + 1..] && b.items[i..] == [b.items[i]] + b.items[i + 1..];
    }
  }

  lemma {:induction false} MembersUnique(a: Value, b: Value, i: nat, x: string, y: string)
    requires a.Object? && b.Object? && WellFormed(a) && WellFormed(b) && i <= |a.entries| && i <= |b.entries|
    requires Members(a, i, x) == Members(b, i, y)
    ensures a.entries[i..] == b.entries[i..] && x == y
    decreases a, 0, |a.entries| - i
  {
    MembersStart(a, i, x);
    MembersStart(b, i, y);
    if i == |a.entries| {
      SplitAt(['}'], ['}'], x, y);
    } else {
      var d, e, p, q := a.entries[i], b.entries[i], Members(a, i + 1, x), Members(b, i + 1, y);
      assert d < a && WellFormed(d.value) && WellFormed(e.value);
      SeparatedUnique(i, Quoted(d.key, [':'] + Write(d.value, p)), Quoted(e.key, [':'] + Write(e.value, q)));
      QuotedUnique(d.key, e.key, [':'] + Write(d.value, p), [':'] + Write(e.value, q));
      SplitAt([':'], [':'], Write(d.value, p), Write(e.value, q));
      MembersStart(a, i + 1, x);
      MembersStart(b, i + 1, y);
      WriteUnique(d.value, e.value, p, q);
      MembersUnique(a, b, i + 1, x, y);
      assert a.entries[i..] == [d] + a.entries[i + 1..] && b.entries[i..] == [e] + b.entries[i + 1..];
    }
  }

  /** A value can be read off its text, whatever follows it. */
  lemma {:induction false} WriteUnique(a: Value, b: Value, x: string, y: string)
    requires WellFormed(a) && WellFormed(b) && Ends(x) && Ends(y) && Write(a, x) == Write(b, y)
    ensures a == b && x == y
    decreases a, 1, 0
  {
    WriteStarts(a, x);
    WriteStarts(b, y);
    FirstTellsKind(a, b);
    match a
    case Null => SplitAt("null", "null", x, y);
    case Bool(v) => SplitAt(if v then "true" else "false", if v then "true" else "false", x, y);
    case Number(digits) => NumberUnique(digits, b.digits, x, y);
    case Text(text) => QuotedUnique(text, b.text, x, y);
    case Array(_) =>
      SplitAt(['['], ['['], Items(a, 0, x), Items(b, 0, y));
      ItemsUnique(a, b, 0, x, y);
      assert a.items == a.items[0..] && b.items == b.items[0..];
    case Object(_) =>
      SplitAt(['{'], ['{'], Members(a, 0, x), Members(b, 0, y));
      MembersUnique(a, b, 0, x, y);
      assert a.entries == a.entries[0..] && b.entries == b.entries[0..];
  }

  /** The text that is hashed is the same exactly for bodies that differ only by the order of
      object keys, at any depth. */
  lemma SameTextIff(a: Value, b: Value)
    requires WellFormed(a) && WellFormed(b)
    ensures CanonicalText(a) == CanonicalText(b) <==> SameUpToOrder(a, b)
  {
    CanonicalIff(a, b);
    SortingOnlyReorders(a);
    SortingOnlyReorders(b);
    if CanonicalText(a) == CanonicalText(b) { WriteUnique(Sorted(a), Sorted(b), [], []); }
  }
}
