/**
 * `canonicalJson`, the text the idempotency fingerprint hashes: object keys sorted at every level,
 * strings escaped as in section 7 of RFC 8259, numbers as the token the runtime prints.
 * Text is a sequence of UTF-16 code units.
 */
module CanonicalJson {
  import opened Common

  type Unit = n: nat | n < 0x10000
  type Text = seq<Unit>

  const Quote: Unit := 34
  const Comma: Unit := 44
  const Colon: Unit := 58
  const OpenBracket: Unit := 91
  const Backslash: Unit := 92
  const CloseBracket: Unit := 93
  const LetterU: Unit := 117
  const OpenBrace: Unit := 123
  const CloseBrace: Unit := 125

  /** A parsed body; an object lists its properties in insertion order. */
  datatype Json =
    | JNull
    | JBool(b: bool)
    | JNum(token: Text)
    | JStr(s: Text)
    | JArr(items: seq<Json>)
    | JObj(fields: seq<Field>)

  datatype Field = Field(key: Text, value: Json)

  /** The same value with the order of properties forgotten. */
  datatype Value =
    | VNull
    | VBool(b: bool)
    | VNum(token: Text)
    | VStr(s: Text)
    | VArr(items: seq<Value>)
    | VObj(fields: map<Text, Value>)

  function ValueOf(v: Json): Value
    decreases v, 0
  {
    match v
    case JNull => VNull
    case JBool(b) => VBool(b)
    case JNum(token) => VNum(token)
    case JStr(s) => VStr(s)
    case JArr(items) => VArr(ValuesOf(items))
    case JObj(fields) => VObj(FieldMap(fields))
  }

  function ValuesOf(items: seq<Json>): (vs: seq<Value>)
    ensures |vs| == |items|
    decreases items, 1
  {
    if items == [] then [] else [ValueOf(items[0])] + ValuesOf(items[1..])
  }

  function FieldMap(fields: seq<Field>): map<Text, Value>
    decreases fields, 1
  {
    if fields == [] then map[] else FieldMap(fields[1..])[fields[0].key := ValueOf(fields[0].value)]
  }

  predicate DistinctKeys(fields: seq<Field>) {
    forall i, j :: 0 <= i < j < |fields| ==> fields[i].key != fields[j].key
  }

  /** Units of a printed number: digits, sign, point and exponent. */
  predicate NumberUnit(u: Unit) { 48 <= u <= 57 || u in {43, 45, 46, 69, 101} }

  /** What a JSON parser can return: number tokens look like numbers and no object repeats a key. */
  predicate Parsed(v: Json)
    decreases v, 0
  {
    match v
    case JNum(token) => token != [] && forall i :: 0 <= i < |token| ==> NumberUnit(token[i])
    case JArr(items) => forall i :: 0 <= i < |items| ==> Parsed(items[i])
    case JObj(fields) => DistinctKeys(fields) && forall i :: 0 <= i < |fields| ==> Parsed(fields[i].value)
    case _ => true
  }

  // ---- Strings ---------------------------------------------------------------------------------------------

  function HexDigit(d: nat): Unit
    requires d < 16
  {
    if d < 10 then 48 + d else 87 + d
  }

  function UnicodeEscape(u: Unit): Text {
    var q := u / 16;
    var p := q / 16;
    [Backslash, LetterU, HexDigit(p / 16), HexDigit(p % 16), HexDigit(q % 16), HexDigit(u % 16)]
  }

  predicate IsHigh(u: Unit) { 0xD800 <= u <= 0xDBFF }

  predicate IsLow(u: Unit) { 0xDC00 <= u <= 0xDFFF }

  /** One unit that is not part of a surrogate pair, as JSON.stringify writes it. */
  function EscapeUnit(u: Unit): Text {
    if u == Quote || u == Backslash then [Backslash, u]
    else if u == 8 then [Backslash, 98]
    else if u == 9 then [Backslash, 116]
    else if u == 10 then [Backslash, 110]
    else if u == 12 then [Backslash, 102]
    else if u == 13 then [Backslash, 114]
    else if u < 32 || IsHigh(u) || IsLow(u) then UnicodeEscape(u)
    else [u]
  }

  predicate StartsPair(s: Text) { |s| >= 2 && IsHigh(s[0]) && IsLow(s[1]) }

  function Escape(s: Text): Text {
    if s == [] then []
    else if StartsPair(s) then s[..2] + Escape(s[2..])
    else EscapeUnit(s[0]) + Escape(s[1..])
  }

  function QuoteText(s: Text): Text { [Quote] + Escape(s) + [Quote] }

  // ---- Key order ---------------------------------------------------------------------------------------------

  /** Lexicographic order of code units, the order of Array.prototype.sort on strings. */
  predicate Before(a: Text, b: Text) {
    b != [] && (a == [] || a[0] < b[0] || (a[0] == b[0] && Before(a[1..], b[1..])))
  }

  function Insert(f: Field, sorted: seq<Field>): seq<Field> {
    if sorted == [] || Before(f.key, sorted[0].key) then [f] + sorted else [sorted[0]] + Insert(f, sorted[1..])
  }

  function Sort(fields: seq<Field>): seq<Field> {
    if fields == [] then [] else Insert(fields[0], Sort(fields[1..]))
  }

  predicate Sorted(fields: seq<Field>) {
    forall i, j :: 0 <= i < j < |fields| ==> Before(fields[i].key, fields[j].key)
  }

  // ---- The text ------------------------------------------------------------------------------------------------

  function Size(v: Json): nat
    decreases v, 0
  {
    match v
    case JArr(items) => 1 + ItemsSize(items)
    case JObj(fields) => 1 + FieldsSize(fields)
    case _ => 1
  }

  function ItemsSize(items: seq<Json>): nat
    decreases items, 1
  {
    if items == [] then 0 else 1 + Size(items[0]) + ItemsSize(items[1..])
  }

  function FieldsSize(fields: seq<Field>): nat
    decreases fields, 1
  {
    if fields == [] then 0 else 1 + Size(fields[0].value) + FieldsSize(fields[1..])
  }

  lemma {:induction false} InsertKeeps(f: Field, sorted: seq<Field>)
    ensures FieldsSize(Insert(f, sorted)) == 1 + Size(f.value) + FieldsSize(sorted)
    ensures multiset(Insert(f, sorted)) == multiset(sorted) + multiset{f}
  {
    if sorted == [] || Before(f.key, sorted[0].key) {
      assert ([f] + sorted)[1..] == sorted;
    } else {
      InsertKeeps(f, sorted[1..]);
      var rest := Insert(f, sorted[1..]);
      assert ([sorted[0]] + rest)[1..] == rest;
      assert sorted == [sorted[0]] + sorted[1..];
    }
  }

  lemma {:induction false} SortKeeps(fields: seq<Field>)
    ensures FieldsSize(Sort(fields)) == FieldsSize(fields)
    ensures multiset(Sort(fields)) == multiset(fields)
  {
    if fields != [] {
      SortKeeps(fields[1..]);
      InsertKeeps(fields[0], Sort(fields[1..]));
      assert fields == [fields[0]] + fields[1..];
    }
  }

  /** The text of a value, with no bound on nesting. */
  function TextOf(v: Json): (t: Text)
    ensures t != []
    decreases Size(v), 0
  {
    match v
    case JNull => [110, 117, 108, 108]
    case JBool(true) => [116, 114, 117, 101]
    case JBool(false) => [102, 97, 108, 115, 101]
    case JNum(token) => if token == [] then [48] else token
    case JStr(s) => QuoteText(s)
    case JArr(items) => [OpenBracket] + ItemsText(items, true)
    case JObj(fields) => SortKeeps(fields); [OpenBrace] + FieldsText(Sort(fields), true)
  }

  /** The rest of an array: items joined by commas, and the bracket. */
  function ItemsText(items: seq<Json>, first: bool): (t: Text)
    ensures t != []
    decreases ItemsSize(items), 1
  {
    if items == [] then [CloseBracket]
    else (if first then [] else [Comma]) + TextOf(items[0]) + ItemsText(items[1..], false)
  }

  function FieldsText(fields: seq<Field>, first: bool): (t: Text)
    ensures t != []
    decreases FieldsSize(fields), 1
  {
    if fields == [] then [CloseBrace]
    else (if first then [] else [Comma]) + QuoteText(fields[0].key) + [Colon] + TextOf(fields[0].value)
         + FieldsText(fields[1..], false)
  }

  const MaxDepth: nat := 32

  /** `canonicalJson` itself: None where the source throws on nesting. */
  function Canonical(v: Json, depth: nat): Option<Text>
    decreases Size(v), 0
  {
    if depth > MaxDepth then None
    else
      match v
      case JArr(items) =>
        (match CanonicalItems(items, depth + 1, true)
         case None => None
         case Some(t) => Some([OpenBracket] + t))
      case JObj(fields) =>
        SortKeeps(fields);
        (match CanonicalFields(Sort(fields), depth + 1, true)
         case None => None
         case Some(t) => Some([OpenBrace] + t))
      case _ => Some(TextOf(v))
  }

  function CanonicalItems(items: seq<Json>, depth: nat, first: bool): Option<Text>
    decreases ItemsSize(items), 1
  {
    if items == [] then Some([CloseBracket])
    else
      match (Canonical(items[0], depth), CanonicalItems(items[1..], depth, false))
      case (Some(t), Some(rest)) => Some((if first then [] else [Comma]) + t + rest)
      case _ => None
  }

  function CanonicalFields(fields: seq<Field>, depth: nat, first: bool): Option<Text>
    decreases FieldsSize(fields), 1
  {
    if fields == [] then Some([CloseBrace])
    else
      match (Canonical(fields[0].value, depth), CanonicalFields(fields[1..], depth, false))
      case (Some(t), Some(rest)) =>
        Some((if first then [] else [Comma]) + QuoteText(fields[0].key) + [Colon] + t + rest)
      case _ => None
  }

  // ---- Unique decoding: strings -----------------------------------------------------------------------------

  lemma DigitInjective(d: nat, e: nat)
    requires d < 16 && e < 16 && HexDigit(d) == HexDigit(e)
    ensures d == e
  {}

  lemma Rebuilt(n: nat, m: nat)
    requires n / 16 == m / 16 && n % 16 == m % 16
    ensures n == m
  {}

  lemma HexInjective(u: Unit, w: Unit)
    requires UnicodeEscape(u) == UnicodeEscape(w)
    ensures u == w
  {
    var a, b := UnicodeEscape(u), UnicodeEscape(w);
    assert a[2] == b[2] && a[3] == b[3] && a[4] == b[4] && a[5] == b[5];
    DigitInjective(u % 16, w % 16);
    DigitInjective(u / 16 % 16, w / 16 % 16);
    DigitInjective(u / 16 / 16 % 16, w / 16 / 16 % 16);
    DigitInjective(u / 16 / 16 / 16, w / 16 / 16 / 16);
    Rebuilt(u / 16 / 16, w / 16 / 16);
    Rebuilt(u / 16, w / 16);
    Rebuilt(u, w);
  }

  /** Equal texts with equally long heads have equal heads and tails. */
  lemma SplitAt(a: Text, x: Text, b: Text, y: Text)
    requires a + x == b + y && |a| == |b|
    ensures a == b && x == y
  {
    assert a == (a + x)[..|a|] && x == (a + x)[|a|..];
    assert b == (b + y)[..|b|] && y == (b + y)[|b|..];
  }

  lemma UnitDecodes(c: Unit, d: Unit, x: Text, y: Text)
    requires EscapeUnit(c) + x == EscapeUnit(d) + y
    ensures c == d && x == y
  {
    var a, b := EscapeUnit(c), EscapeUnit(d);
    assert a[0] == (a + x)[0] && b[0] == (b + y)[0];
    if |a| > 1 { assert a[1] == (a + x)[1] && b[1] == (b + y)[1]; }
    assert |a| == |b|;
    SplitAt(a, x, b, y);
    if |a| == 6 { HexInjective(c, d); }
  }

  lemma Assoc(a: Text, b: Text, c: Text, x: Text)
    ensures a + b + c + x == a + (b + (c + x))
  {}

  /** The escaped text of the first character, a surrogate pair or one unit. */
  function Head(s: Text): Text
    requires s != []
  {
    if StartsPair(s) then s[..2] else EscapeUnit(s[0])
  }

  function HeadLength(s: Text): nat
    requires s != []
  {
    if StartsPair(s) then 2 else 1
  }

  lemma EscapeUnfolds(s: Text)
    requires s != []
    ensures HeadLength(s) <= |s| && Escape(s) == Head(s) + Escape(s[HeadLength(s)..])
    ensures Head(s) != [] && Head(s)[0] != Quote
  {}

  lemma EscapeStep(s: Text, x: Text)
    requires s != []
    ensures HeadLength(s) <= |s|
    ensures Escape(s) + [Quote] + x == Head(s) + (Escape(s[HeadLength(s)..]) + [Quote] + x)
    ensures Head(s) != [] && Head(s)[0] != Quote
  {
    EscapeUnfolds(s);
    Reassoc(Escape(s), Head(s), Escape(s[HeadLength(s)..]), [Quote], x);
  }

  lemma Reassoc(ab: Text, a: Text, b: Text, c: Text, x: Text)
    requires ab == a + b
    ensures ab + c + x == a + (b + c + x)
  {}

  lemma HeadDecodes(s: Text, w: Text, x: Text, y: Text)
    requires s != [] && w != [] && Head(s) + x == Head(w) + y
    ensures HeadLength(s) == HeadLength(w) && HeadLength(s) <= |s| && HeadLength(w) <= |w|
    ensures s[..HeadLength(s)] == w[..HeadLength(w)] && x == y
  {
    assert Head(s)[0] == (Head(s) + x)[0] && Head(w)[0] == (Head(w) + y)[0];
    if StartsPair(s) {
      SplitAt(Head(s), x, Head(w), y);
    } else {
      UnitDecodes(s[0], w[0], x, y);
    }
  }

  /** The closing quote is seen at once exactly when the string is over. */
  lemma EscapeEnds(s: Text, x: Text)
    ensures s == [] <==> (Escape(s) + [Quote] + x)[0] == Quote
  {
    if s != [] { EscapeStep(s, x); }
  }

  /** A string up to its closing quote determines the string and what follows. */
  lemma {:induction false} EscapeDecodes(s: Text, w: Text, x: Text, y: Text)
    requires Escape(s) + [Quote] + x == Escape(w) + [Quote] + y
    ensures s == w && x == y
    decreases |s|
  {
    EscapeEnds(s, x);
    EscapeEnds(w, y);
    if s == [] {
      assert [Quote] + x == [] + [Quote] + x && [Quote] + y == [] + [Quote] + y;
      SplitAt([Quote], x, [Quote], y);
    } else {
      EscapeStep(s, x);
      EscapeStep(w, y);
      var m := HeadLength(s);
      HeadDecodes(s, w, Escape(s[m..]) + [Quote] + x, Escape(w[HeadLength(w)..]) + [Quote] + y);
      EscapeDecodes(s[m..], w[m..], x, y);
      assert s == s[..m] + s[m..] && w == w[..m] + w[m..];
    }
  }

  lemma QuoteDecodes(s: Text, w: Text, x: Text, y: Text)
    requires QuoteText(s) + x == QuoteText(w) + y
    ensures s == w && x == y
  {
    assert QuoteText(s) + x == [Quote] + (Escape(s) + [Quote] + x);
    assert QuoteText(w) + y == [Quote] + (Escape(w) + [Quote] + y);
    SplitAt([Quote], Escape(s) + [Quote] + x, [Quote], Escape(w) + [Quote] + y);
    EscapeDecodes(s, w, x, y);
  }

  // ---- Unique decoding: values --------------------------------------------------------------------------------

  /** What may follow a value: the end, a comma or a closing bracket. */
  predicate Delimited(x: Text) { x == [] || x[0] in {Comma, CloseBracket, CloseBrace} }

  predicate IsToken(t: Text) { t != [] && forall i :: 0 <= i < |t| ==> NumberUnit(t[i]) }

  lemma NoShorterToken(a: Text, b: Text, x: Text, y: Text)
    requires IsToken(b) && Delimited(x) && a + x == b + y
    ensures |b| <= |a|
  {
    var i := Min(|a|, |b| - 1);
    assert (a + x)[i] == (b + y)[i];
  }

  lemma TokenDecodes(a: Text, b: Text, x: Text, y: Text)
    requires IsToken(a) && IsToken(b) && Delimited(x) && Delimited(y) && a + x == b + y
    ensures a == b && x == y
  {
    NoShorterToken(a, b, x, y);
    NoShorterToken(b, a, y, x);
    SplitAt(a, x, b, y);
  }

  /** The first unit tells the kind of value. */
  predicate StartsAs(v: Json, u: Unit) {
    match v
    case JNull => u == 110
    case JBool(b) => u == if b then 116 else 102
    case JNum(_) => NumberUnit(u)
    case JStr(_) => u == Quote
    case JArr(_) => u == OpenBracket
    case JObj(_) => u == OpenBrace
  }

  lemma TextStarts(v: Json)
    requires Parsed(v)
    ensures StartsAs(v, TextOf(v)[0])
  {}

  lemma SortParsed(fields: seq<Field>)
    requires forall i :: 0 <= i < |fields| ==> Parsed(fields[i].value)
    ensures forall i :: 0 <= i < |Sort(fields)| ==> Parsed(Sort(fields)[i].value)
  {
    SortKeeps(fields);
    forall i | 0 <= i < |Sort(fields)| ensures Parsed(Sort(fields)[i].value) {
      assert Sort(fields)[i] in multiset(Sort(fields));
      assert Sort(fields)[i] in multiset(fields);
    }
  }

  /** Same keys in the same places, and the same values under them. */
  predicate SameFields(f: seq<Field>, g: seq<Field>) {
    |f| == |g| && forall i :: 0 <= i < |f| ==> f[i].key == g[i].key && ValueOf(f[i].value) == ValueOf(g[i].value)
  }

  function Sep(first: bool): Text { if first then [] else [Comma] }

  /** An array's text unrolled by one item, or closed; the first unit tells which. */
  lemma ItemsStep(items: seq<Json>, first: bool, x: Text)
    requires forall i :: 0 <= i < |items| ==> Parsed(items[i])
    ensures ItemsText(items, first) + x ==
            if items == [] then [CloseBracket] + x
            else Sep(first) + (TextOf(items[0]) + (ItemsText(items[1..], false) + x))
    ensures items == [] <==> (ItemsText(items, first) + x)[0] == CloseBracket
    ensures Delimited(ItemsText(items, false) + x)
  {
    if items != [] {
      TextStarts(items[0]);
      Assoc(Sep(first), TextOf(items[0]), ItemsText(items[1..], false), x);
    }
  }

  lemma FieldsStep(fields: seq<Field>, first: bool, x: Text)
    ensures FieldsText(fields, first) + x ==
            if fields == [] then [CloseBrace] + x
            else Sep(first) + (QuoteText(fields[0].key) +
                   ([Colon] + (TextOf(fields[0].value) + (FieldsText(fields[1..], false) + x))))
    ensures fields == [] <==> (FieldsText(fields, first) + x)[0] == CloseBrace
    ensures Delimited(FieldsText(fields, false) + x)
  {
    if fields != [] {
      var k, t, rest := QuoteText(fields[0].key), TextOf(fields[0].value), FieldsText(fields[1..], false);
      Assoc(Sep(first) + k, [Colon], t, rest + x);
      Assoc(Sep(first), k, [Colon] + (t + (rest + x)), []);
      assert Sep(first) + k + [Colon] + t + rest + x == Sep(first) + k + [Colon] + t + (rest + x);
      assert [Colon] + (t + (rest + x)) + [] == [Colon] + (t + (rest + x));
    }
  }

  lemma ArrayOpens(items: seq<Json>, x: Text)
    ensures TextOf(JArr(items)) + x == [OpenBracket] + (ItemsText(items, true) + x)
  {}

  lemma ObjectOpens(fields: seq<Field>, x: Text)
    ensures TextOf(JObj(fields)) + x == [OpenBrace] + (FieldsText(Sort(fields), true) + x)
  {}

  /** A value's text determines, in any delimited context, the value up to property order and the rest. */
  lemma {:induction false} TextDecodes(v: Json, w: Json, x: Text, y: Text)
    requires Parsed(v) && Parsed(w) && Delimited(x) && Delimited(y)
    requires TextOf(v) + x == TextOf(w) + y
    ensures ValueOf(v) == ValueOf(w) && x == y
    decreases Size(v), 0
  {
    TextStarts(v);
    TextStarts(w);
    assert TextOf(v)[0] == (TextOf(v) + x)[0] && TextOf(w)[0] == (TextOf(w) + y)[0];
    match v
    case JNum(token) => TokenDecodes(token, w.token, x, y);
    case JStr(s) => QuoteDecodes(s, w.s, x, y);
    case JArr(items) =>
      ArrayOpens(items, x);
      ArrayOpens(w.items, y);
      SplitAt([OpenBracket], ItemsText(items, true) + x, [OpenBracket], ItemsText(w.items, true) + y);
      ItemsDecode(items, w.items, true, x, y);
    case JObj(fields) => ObjectDecodes(fields, w.fields, x, y);
    case _ => SplitAt(TextOf(v), x, TextOf(w), y);
  }

  lemma {:induction false} ObjectDecodes(a: seq<Field>, b: seq<Field>, x: Text, y: Text)
    requires Parsed(JObj(a)) && Parsed(JObj(b)) && TextOf(JObj(a)) + x == TextOf(JObj(b)) + y
    ensures FieldMap(a) == FieldMap(b) && x == y
    decreases FieldsSize(a), 2
  {
    var f, g := Sort(a), Sort(b);
    SortKeeps(a);
    SortParsed(a);
    SortParsed(b);
    ObjectOpens(a, x);
    ObjectOpens(b, y);
    SplitAt([OpenBrace], FieldsText(f, true) + x, [OpenBrace], FieldsText(g, true) + y);
    FieldsDecode(f, g, true, x, y);
    SameFieldsSameMap(f, g);
    SortKeepsMap(a);
    SortKeepsMap(b);
  }

  lemma {:induction false} ItemsDecode(a: seq<Json>, b: seq<Json>, first: bool, x: Text, y: Text)
    requires forall i :: 0 <= i < |a| ==> Parsed(a[i])
    requires forall i :: 0 <= i < |b| ==> Parsed(b[i])
    requires ItemsText(a, first) + x == ItemsText(b, first) + y
    ensures ValuesOf(a) == ValuesOf(b) && x == y
    decreases ItemsSize(a), 1
  {
    ItemsStep(a, first, x);
    ItemsStep(b, first, y);
    if a == [] {
      SplitAt([CloseBracket], x, [CloseBracket], y);
    } else {
      var xs, ys := ItemsText(a[1..], false) + x, ItemsText(b[1..], false) + y;
      SplitAt(Sep(first), TextOf(a[0]) + xs, Sep(first), TextOf(b[0]) + ys);
      ItemsStep(a[1..], false, x);
      ItemsStep(b[1..], false, y);
      TextDecodes(a[0], b[0], xs, ys);
      ItemsDecode(a[1..], b[1..], false, x, y);
    }
  }

  lemma {:induction false} FieldsDecode(f: seq<Field>, g: seq<Field>, first: bool, x: Text, y: Text)
    requires forall i :: 0 <= i < |f| ==> Parsed(f[i].value)
    requires forall i :: 0 <= i < |g| ==> Parsed(g[i].value)
    requires FieldsText(f, first) + x == FieldsText(g, first) + y
    ensures SameFields(f, g) && x == y
    decreases FieldsSize(f), 1
  {
    FieldsStep(f, first, x);
    FieldsStep(g, first, y);
    if f == [] {
      SplitAt([CloseBrace], x, [CloseBrace], y);
    } else {
      var xs, ys := FieldsText(f[1..], false) + x, FieldsText(g[1..], false) + y;
      FieldHeadDecodes(f[0], g[0], first, xs, ys);
      FieldsStep(f[1..], false, x);
      FieldsStep(g[1..], false, y);
      TextDecodes(f[0].value, g[0].value, xs, ys);
      FieldsDecode(f[1..], g[1..], false, x, y);
      SameFieldsStep(f, g);
    }
  }

  lemma SameFieldsStep(f: seq<Field>, g: seq<Field>)
    requires f != [] && g != [] && SameFields(f[1..], g[1..])
    requires f[0].key == g[0].key && ValueOf(f[0].value) == ValueOf(g[0].value)
    ensures SameFields(f, g)
  {
    forall i | 0 <= i < |f| ensures f[i].key == g[i].key && ValueOf(f[i].value) == ValueOf(g[i].value) {
      if i > 0 { assert f[i] == f[1..][i - 1] && g[i] == g[1..][i - 1]; }
    }
  }

  lemma FieldHeadDecodes(f: Field, g: Field, first: bool, xs: Text, ys: Text)
    requires Sep(first) + (QuoteText(f.key) + ([Colon] + (TextOf(f.value) + xs))) ==
             Sep(first) + (QuoteText(g.key) + ([Colon] + (TextOf(g.value) + ys)))
    ensures f.key == g.key && TextOf(f.value) + xs == TextOf(g.value) + ys
  {
    var xv, yv := [Colon] + (TextOf(f.value) + xs), [Colon] + (TextOf(g.value) + ys);
    SplitAt(Sep(first), QuoteText(f.key) + xv, Sep(first), QuoteText(g.key) + yv);
    QuoteDecodes(f.key, g.key, xv, yv);
    SplitAt([Colon], TextOf(f.value) + xs, [Colon], TextOf(g.value) + ys);
  }

  // ---- Objects as maps --------------------------------------------------------------------------------------------

  lemma {:induction false} SameFieldsSameMap(f: seq<Field>, g: seq<Field>)
    requires SameFields(f, g)
    ensures FieldMap(f) == FieldMap(g)
  {
    if f != [] {
      assert SameFields(f[1..], g[1..]);
      SameFieldsSameMap(f[1..], g[1..]);
    }
  }

  /** With distinct keys, the map says exactly what the list says. */
  lemma {:induction false} MapHolds(fields: seq<Field>)
    requires DistinctKeys(fields)
    ensures forall i :: 0 <= i < |fields| ==>
            fields[i].key in FieldMap(fields) && FieldMap(fields)[fields[i].key] == ValueOf(fields[i].value)
    ensures forall k :: k in FieldMap(fields) ==> exists i :: 0 <= i < |fields| && fields[i].key == k
  {
    if fields != [] {
      MapHolds(fields[1..]);
      forall i | 0 <= i < |fields|
        ensures fields[i].key in FieldMap(fields) && FieldMap(fields)[fields[i].key] == ValueOf(fields[i].value)
      {
        if i > 0 { assert fields[i] == fields[1..][i - 1]; }
      }
      forall k | k in FieldMap(fields) ensures exists i :: 0 <= i < |fields| && fields[i].key == k {
        if k != fields[0].key {
          var i :| 0 <= i < |fields[1..]| && fields[1..][i].key == k;
          assert fields[i + 1].key == k;
        } else {
          assert fields[0].key == k;
        }
      }
    }
  }

  lemma ConsMap(f: Field, rest: seq<Field>)
    requires DistinctKeys(rest) && f.key !in FieldMap(rest)
    ensures DistinctKeys([f] + rest) && FieldMap([f] + rest) == FieldMap(rest)[f.key := ValueOf(f.value)]
  {
    MapHolds(rest);
    assert ([f] + rest)[1..] == rest;
  }

  lemma HeadKeyAbsent(fields: seq<Field>)
    requires fields != [] && DistinctKeys(fields)
    ensures DistinctKeys(fields[1..]) && fields[0].key !in FieldMap(fields[1..])
  {
    MapHolds(fields[1..]);
  }

  lemma UpdatesCommute(m: map<Text, Value>, k: Text, v: Value, l: Text, w: Value)
    requires k != l
    ensures (m[k := v])[l := w] == (m[l := w])[k := v]
  {}

  /** Distinct keys survive insertion, and the map gains the new field. */
  lemma {:induction false} InsertKeepsMap(f: Field, sorted: seq<Field>)
    requires DistinctKeys(sorted) && f.key !in FieldMap(sorted)
    ensures DistinctKeys(Insert(f, sorted))
            && FieldMap(Insert(f, sorted)) == FieldMap(sorted)[f.key := ValueOf(f.value)]
  {
    if sorted == [] || Before(f.key, sorted[0].key) {
      ConsMap(f, sorted);
    } else {
      var s0, m := sorted[0], FieldMap(sorted[1..]);
      HeadKeyAbsent(sorted);
      assert f.key != s0.key && f.key !in m;
      InsertKeepsMap(f, sorted[1..]);
      ConsMap(s0, Insert(f, sorted[1..]));
      UpdatesCommute(m, f.key, ValueOf(f.value), s0.key, ValueOf(s0.value));
    }
  }

  lemma {:induction false} SortKeepsMap(fields: seq<Field>)
    requires DistinctKeys(fields)
    ensures DistinctKeys(Sort(fields)) && FieldMap(Sort(fields)) == FieldMap(fields)
  {
    if fields != [] {
      MapHolds(fields[1..]);
      SortKeepsMap(fields[1..]);
      InsertKeepsMap(fields[0], Sort(fields[1..]));
    }
  }

  // ---- The order of keys ------------------------------------------------------------------------------------------

  lemma {:induction false} BeforeTransitive(a: Text, b: Text, c: Text)
    requires Before(a, b) && Before(b, c)
    ensures Before(a, c)
  {
    if a != [] && a[0] == b[0] && b[0] == c[0] { BeforeTransitive(a[1..], b[1..], c[1..]); }
  }

  lemma {:induction false} BeforeTotal(a: Text, b: Text)
    ensures a == b || Before(a, b) || Before(b, a)
  {
    if a != [] && b != [] && a[0] == b[0] {
      BeforeTotal(a[1..], b[1..]);
      assert a == [a[0]] + a[1..] && b == [b[0]] + b[1..];
    }
  }

  lemma {:induction false} BeforeIrreflexive(a: Text)
    ensures !Before(a, a)
  {
    if a != [] { BeforeIrreflexive(a[1..]); }
  }

  /** The first key of a sorted list comes before every other key it holds. */
  lemma SortedCons(f: Field, rest: seq<Field>)
    requires Sorted(rest) && (rest == [] || Before(f.key, rest[0].key))
    ensures Sorted([f] + rest)
  {
    forall i | 0 <= i < |rest| ensures Before(f.key, rest[i].key) {
      if i > 0 { BeforeTransitive(f.key, rest[0].key, rest[i].key); }
    }
  }

  lemma {:induction false} InsertSorts(f: Field, sorted: seq<Field>)
    requires Sorted(sorted) && forall i :: 0 <= i < |sorted| ==> sorted[i].key != f.key
    ensures Sorted(Insert(f, sorted))
    ensures Insert(f, sorted)[0].key == f.key || (sorted != [] && Insert(f, sorted)[0] == sorted[0])
  {
    if sorted == [] || Before(f.key, sorted[0].key) {
      SortedCons(f, sorted);
    } else {
      BeforeTotal(f.key, sorted[0].key);
      InsertSorts(f, sorted[1..]);
      SortedCons(sorted[0], Insert(f, sorted[1..]));
    }
  }

  lemma {:induction false} SortSorts(fields: seq<Field>)
    requires DistinctKeys(fields)
    ensures Sorted(Sort(fields))
  {
    if fields != [] {
      var rest := Sort(fields[1..]);
      SortSorts(fields[1..]);
      HeadKeyAbsent(fields);
      SortKeepsMap(fields[1..]);
      MapHolds(rest);
      InsertSorts(fields[0], rest);
    }
  }

  lemma FirstKeyNotLater(f: seq<Field>, g: seq<Field>)
    requires Sorted(f) && Sorted(g) && DistinctKeys(f) && DistinctKeys(g) && g != []
    requires FieldMap(f) == FieldMap(g)
    ensures f != [] && (f[0].key == g[0].key || Before(f[0].key, g[0].key))
  {
    MapHolds(f);
    MapHolds(g);
    assert g[0].key in FieldMap(f);
    var i :| 0 <= i < |f| && f[i].key == g[0].key;
    if i > 0 { assert Before(f[0].key, f[i].key); }
  }

  /** A map has one sorted listing. */
  lemma {:induction false} SortedListingUnique(f: seq<Field>, g: seq<Field>)
    requires Sorted(f) && Sorted(g) && DistinctKeys(f) && DistinctKeys(g) && FieldMap(f) == FieldMap(g)
    ensures SameFields(f, g)
  {
    if f == [] && g == [] {
    } else {
      if g == [] { FirstKeyNotLater(g, f); } else { FirstKeyNotLater(f, g); FirstKeyNotLater(g, f); }
      BeforeIrreflexive(f[0].key);
      if Before(f[0].key, g[0].key) && Before(g[0].key, f[0].key) { BeforeTransitive(f[0].key, g[0].key, f[0].key); }
      TailMap(f);
      TailMap(g);
      SortedListingUnique(f[1..], g[1..]);
      SameFieldsStep(f, g);
    }
  }

  lemma TailMap(fields: seq<Field>)
    requires fields != [] && DistinctKeys(fields)
    ensures DistinctKeys(fields[1..]) && FieldMap(fields[1..]) == FieldMap(fields) - {fields[0].key}
    ensures FieldMap(fields)[fields[0].key] == ValueOf(fields[0].value)
  {
    HeadKeyAbsent(fields);
  }

  // ---- Equal values have equal texts ------------------------------------------------------------------------------

  lemma {:induction false} EqualText(v: Json, w: Json)
    requires Parsed(v) && Parsed(w) && ValueOf(v) == ValueOf(w)
    ensures TextOf(v) == TextOf(w)
    decreases Size(v), 0
  {
    match v
    case JArr(items) => EqualItemsText(items, w.items, true);
    case JObj(fields) =>
      SortKeeps(fields);
      SortParsed(fields);
      SortParsed(w.fields);
      SortKeepsMap(fields);
      SortKeepsMap(w.fields);
      SortSorts(fields);
      SortSorts(w.fields);
      SortedListingUnique(Sort(fields), Sort(w.fields));
      EqualFieldsText(Sort(fields), Sort(w.fields), true);
    case _ =>
  }

  lemma {:induction false} EqualItemsText(a: seq<Json>, b: seq<Json>, first: bool)
    requires forall i :: 0 <= i < |a| ==> Parsed(a[i])
    requires forall i :: 0 <= i < |b| ==> Parsed(b[i])
    requires ValuesOf(a) == ValuesOf(b)
    ensures ItemsText(a, first) == ItemsText(b, first)
    decreases ItemsSize(a), 1
  {
    if a != [] {
      assert ValuesOf(a)[0] == ValuesOf(b)[0];
      assert ValuesOf(a)[1..] == ValuesOf(a[1..]) && ValuesOf(b)[1..] == ValuesOf(b[1..]);
      EqualText(a[0], b[0]);
      EqualItemsText(a[1..], b[1..], false);
    }
  }

  lemma {:induction false} EqualFieldsText(f: seq<Field>, g: seq<Field>, first: bool)
    requires forall i :: 0 <= i < |f| ==> Parsed(f[i].value)
    requires forall i :: 0 <= i < |g| ==> Parsed(g[i].value)
    requires SameFields(f, g)
    ensures FieldsText(f, first) == FieldsText(g, first)
    decreases FieldsSize(f), 1
  {
    if f != [] {
      EqualText(f[0].value, g[0].value);
      assert SameFields(f[1..], g[1..]);
      EqualFieldsText(f[1..], g[1..], false);
    }
  }

  // ---- canonicalJson ----------------------------------------------------------------------------------------------

  /** How many levels of arrays and objects a value nests. */
  function Nesting(v: Json): nat
    decreases v, 0
  {
    match v
    case JArr(items) => if items == [] then 0 else 1 + ItemsNesting(items)
    case JObj(fields) => if fields == [] then 0 else 1 + FieldsNesting(fields)
    case _ => 0
  }

  function ItemsNesting(items: seq<Json>): nat
    decreases items, 1
  {
    if items == [] then 0 else Max(Nesting(items[0]), ItemsNesting(items[1..]))
  }

  function FieldsNesting(fields: seq<Field>): nat
    decreases fields, 1
  {
    if fields == [] then 0 else Max(Nesting(fields[0].value), FieldsNesting(fields[1..]))
  }

  lemma {:induction false} InsertNesting(f: Field, sorted: seq<Field>)
    ensures FieldsNesting(Insert(f, sorted)) == Max(Nesting(f.value), FieldsNesting(sorted))
  {
    if sorted == [] || Before(f.key, sorted[0].key) {
      assert ([f] + sorted)[1..] == sorted;
    } else {
      InsertNesting(f, sorted[1..]);
      var rest := Insert(f, sorted[1..]);
      assert ([sorted[0]] + rest)[1..] == rest;
    }
  }

  lemma {:induction false} SortNesting(fields: seq<Field>)
    ensures FieldsNesting(Sort(fields)) == FieldsNesting(fields)
  {
    if fields != [] {
      SortNesting(fields[1..]);
      InsertNesting(fields[0], Sort(fields[1..]));
    }
  }

  /** The function throws exactly on values nested past the bound, and otherwise gives the text of the value. */
  lemma {:induction false} CanonicalIs(v: Json, depth: nat)
    requires depth <= MaxDepth
    ensures Canonical(v, depth) == if depth + Nesting(v) <= MaxDepth then Some(TextOf(v)) else None
    decreases Size(v), 0
  {
    hide Sort, CanonicalItems, CanonicalFields, ItemsText, FieldsText;
    match v
    case JArr(items) => CanonicalItemsIs(items, depth + 1, true);
    case JObj(fields) =>
      SortKeeps(fields);
      SortNesting(fields);
      assert |multiset(Sort(fields))| == |fields|;
      CanonicalFieldsIs(Sort(fields), depth + 1, true);
    case _ =>
  }

  lemma {:induction false} CanonicalItemsIs(items: seq<Json>, depth: nat, first: bool)
    requires depth <= MaxDepth + 1
    ensures CanonicalItems(items, depth, first) ==
            if items == [] || depth + ItemsNesting(items) <= MaxDepth then Some(ItemsText(items, first)) else None
    decreases ItemsSize(items), 1
  {
    if items != [] {
      if depth <= MaxDepth { CanonicalIs(items[0], depth); }
      CanonicalItemsIs(items[1..], depth, false);
    }
  }

  lemma {:induction false} CanonicalFieldsIs(fields: seq<Field>, depth: nat, first: bool)
    requires depth <= MaxDepth + 1
    ensures CanonicalFields(fields, depth, first) ==
            if fields == [] || depth + FieldsNesting(fields) <= MaxDepth then Some(FieldsText(fields, first)) else None
    decreases FieldsSize(fields), 1
  {
    if fields != [] {
      if depth <= MaxDepth { CanonicalIs(fields[0].value, depth); }
      CanonicalFieldsIs(fields[1..], depth, false);
    }
  }

  /**
   * For parsed values within the nesting bound, two outputs are equal exactly when the values agree
   * up to the order of properties at every level.
   */
  lemma CanonicalDecidesEquality(v: Json, w: Json)
    requires Parsed(v) && Parsed(w) && Nesting(v) <= MaxDepth && Nesting(w) <= MaxDepth
    ensures Canonical(v, 0).Some? && Canonical(w, 0).Some?
    ensures Canonical(v, 0) == Canonical(w, 0) <==> ValueOf(v) == ValueOf(w)
  {
    CanonicalIs(v, 0);
    CanonicalIs(w, 0);
    if Canonical(v, 0) == Canonical(w, 0) {
      assert TextOf(v) + [] == TextOf(w) + [];
      TextDecodes(v, w, [], []);
    }
    if ValueOf(v) == ValueOf(w) { EqualText(v, w); }
  }
}
