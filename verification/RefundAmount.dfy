/** What a USDC refund sends: decimal strings added in stroops, ten million to the unit. */
module RefundAmount {
  import opened Common

  // ---- Decimal digits ----------------------------------------------------------------------------------------

  type Digit = c: char | '0' <= c <= '9' witness '0'

  function Pow10(n: nat): (p: nat)
    ensures p > 0
  {
    if n == 0 then 1 else 10 * Pow10(n - 1)
  }

  /** BigInt(s) */
  function Value(s: seq<Digit>): nat {
    if s == [] then 0 else 10 * Value(s[..|s| - 1]) + (s[|s| - 1] - '0') as nat
  }

  /** String(n) */
  function Decimal(n: nat): (s: seq<Digit>)
    ensures s != []
  {
    if n < 10 then [n as char + '0'] else Decimal(n / 10) + [(n % 10) as char + '0']
  }

  function Zeros(n: nat): (s: seq<Digit>)
    ensures |s| == n
  {
    seq<Digit>(n, _ => '0')
  }

  lemma {:induction false} DecimalValue(n: nat)
    ensures Value(Decimal(n)) == n
  {
    if n >= 10 {
      DecimalValue(n / 10);
      assert Decimal(n)[..|Decimal(n)| - 1] == Decimal(n / 10);
    }
  }

  lemma ValueStep(s: seq<Digit>, c: Digit)
    ensures Value(s + [c]) == 10 * Value(s) + (c - '0') as nat
  {
    assert (s + [c])[..|s|] == s;
  }

  lemma {:induction false} ValueAppend(a: seq<Digit>, b: seq<Digit>)
    ensures Value(a + b) == Value(a) * Pow10(|b|) + Value(b)
  {
    if b == [] {
      assert a + b == a;
    } else {
      hide Value;
      var b', c := b[..|b| - 1], b[|b| - 1];
      ValueAppend(a, b');
      assert a + b == (a + b') + [c] && b == b' + [c];
      ValueStep(a + b', c);
      ValueStep(b', c);
      assert Pow10(|b|) == 10 * Pow10(|b'|);
      Distribute(Value(a), Pow10(|b'|), Value(b'), (c - '0') as nat);
    }
  }

  lemma Distribute(v: nat, p: nat, x: nat, d: nat)
    ensures 10 * (v * p + x) + d == v * (10 * p) + (10 * x + d)
  {}

  lemma {:induction false} ValueBelow(s: seq<Digit>)
    ensures Value(s) < Pow10(|s|)
  {
    if s != [] { ValueBelow(s[..|s| - 1]); }
  }

  lemma {:induction false} ValueZeroIff(s: seq<Digit>)
    ensures Value(s) == 0 <==> forall i :: 0 <= i < |s| ==> s[i] == '0'
  {
    if s != [] { ValueZeroIff(s[..|s| - 1]); }
  }

  lemma {:induction false} DecimalLength(n: nat, k: nat)
    requires n < Pow10(k) && k > 0
    ensures |Decimal(n)| <= k
  {
    if n >= 10 {
      assert k > 1 && Pow10(k) == 10 * Pow10(k - 1);
      DecimalLength(n / 10, k - 1);
    }
  }

  // ---- Decimal strings ---------------------------------------------------------------------------------------

  /** What String.prototype.trim removes, as first and last characters of ranges. */
  const Spaces: seq<(char, char)> := [
    ('\t', '\r'), (' ', ' '), ('\U{00A0}', '\U{00A0}'), ('\U{1680}', '\U{1680}'), ('\U{2000}', '\U{200A}'),
    ('\U{2028}', '\U{2029}'),
    ('\U{202F}', '\U{202F}'), ('\U{205F}', '\U{205F}'), ('\U{3000}', '\U{3000}'), ('\U{FEFF}', '\U{FEFF}')]

  predicate IsSpace(c: char) { exists i :: 0 <= i < |Spaces| && Spaces[i].0 <= c <= Spaces[i].1 }

  /** By code point. */
  lemma SpacesAre(c: char)
    ensures IsSpace(c) <==>
            || 9 <= c as int <= 13 || c as int in {32, 160, 5760, 8239, 8287, 12288, 65279}
            || 8192 <= c as int <= 8202 || 8232 <= c as int <= 8233
  {
    assert Spaces[0].0 <= c <= Spaces[0].1 <==> 9 <= c as int <= 13;
    assert Spaces[4].0 <= c <= Spaces[4].1 <==> 8192 <= c as int <= 8202;
    assert Spaces[5].0 <= c <= Spaces[5].1 <==> 8232 <= c as int <= 8233;
    assert Spaces[1].0 <= c <= Spaces[1].1 <==> c as int == 32;
    assert Spaces[2].0 <= c <= Spaces[2].1 <==> c as int == 160;
    assert Spaces[3].0 <= c <= Spaces[3].1 <==> c as int == 5760;
    assert Spaces[6].0 <= c <= Spaces[6].1 <==> c as int == 8239;
    assert Spaces[7].0 <= c <= Spaces[7].1 <==> c as int == 8287;
    assert Spaces[8].0 <= c <= Spaces[8].1 <==> c as int == 12288;
    assert Spaces[9].0 <= c <= Spaces[9].1 <==> c as int == 65279;
  }

  lemma DigitNotSpace(c: Digit)
    ensures !IsSpace(c)
  {}

  function TrimStart(s: string): string { if s != "" && IsSpace(s[0]) then TrimStart(s[1..]) else s }

  function TrimEnd(s: string): string { if s != "" && IsSpace(s[|s| - 1]) then TrimEnd(s[..|s| - 1]) else s }

  function Trim(s: string): string { TrimEnd(TrimStart(s)) }

  predicate Digits(s: string) { forall i :: 0 <= i < |s| ==> '0' <= s[i] <= '9' }

  function Dot(s: string): (i: nat)
    ensures i <= |s|
  {
    if s == "" || s[0] == '.' then 0 else 1 + Dot(s[1..])
  }

  function Whole(s: string): string { s[..Dot(s)] }

  function Fraction(s: string): string { if Dot(s) < |s| then s[Dot(s) + 1..] else "" }

  /** ^\d+(\.\d+)?$ */
  predicate WellFormed(s: string) {
    Whole(s) != "" && Digits(Whole(s)) && (Dot(s) < |s| ==> Fraction(s) != "" && Digits(Fraction(s)))
  }

  datatype Amount = Amount(whole: seq<Digit>, fraction: seq<Digit>)

  function Read(s: Option<string>): (a: Option<Amount>)
    ensures s.None? ==> a.None?
  {
    if s.None? || s.value == "" then None
    else
      var str := Trim(s.value);
      if WellFormed(str) then Some(Amount(Whole(str), Fraction(str))) else None
  }

  const Unit: nat := 10000000

  function Stroops(a: Amount): nat { Value(a.whole) * Unit + Value((a.fraction + Zeros(7))[..7]) }

  function StroopsOrZero(a: Option<Amount>): nat { if a.Some? then Stroops(a.value) else 0 }

  function ToStroopsOrZero(s: Option<string>): nat { StroopsOrZero(Read(s)) }

  function PadStart(s: seq<Digit>, n: nat): seq<Digit> { if |s| < n then Zeros(n - |s|) + s else s }

  function Printed(stroops: nat): Amount { Amount(Decimal(stroops / Unit), PadStart(Decimal(stroops % Unit), 7)) }

  function StroopsToDecimal(stroops: nat): string { Printed(stroops).whole + "." + Printed(stroops).fraction }

  function ComputeUsdcRefundAmount(amount: Option<string>, excess: Option<string>): string {
    StroopsToDecimal(ToStroopsOrZero(amount) + ToStroopsOrZero(excess))
  }

  // ---- The round trip ----------------------------------------------------------------------------------------

  lemma NothingToTrim(s: string)
    requires s != "" && !IsSpace(s[0]) && !IsSpace(s[|s| - 1])
    ensures Trim(s) == s
  {}

  lemma {:induction false} DotAfter(a: string, b: string)
    requires '.' !in a
    ensures Dot(a + "." + b) == |a|
  {
    if a != "" {
      DotAfter(a[1..], b);
      assert (a + "." + b)[1..] == a[1..] + "." + b;
    }
  }

  lemma PadStartValue(s: seq<Digit>, n: nat)
    requires |s| <= n
    ensures |PadStart(s, n)| == n && Value(PadStart(s, n)) == Value(s)
  {
    if |s| < n {
      ValueAppend(Zeros(n - |s|), s);
      ValueZeroIff(Zeros(n - |s|));
    }
  }

  lemma PartsOf(w: seq<Digit>, f: seq<Digit>)
    requires w != [] && f != []
    ensures var s := w + "." + f; WellFormed(s) && Trim(s) == s && Whole(s) == w && Fraction(s) == f
  {
    var s := w + "." + f;
    DotAfter(w, f);
    assert s[..|w|] == w && s[|w| + 1..] == f;
    assert s[0] == w[0] && s[|s| - 1] == f[|f| - 1];
    DigitNotSpace(w[0]);
    DigitNotSpace(f[|f| - 1]);
    NothingToTrim(s);
  }

  lemma PrintedStroops(n: nat)
    ensures |Printed(n).fraction| == 7 && Stroops(Printed(n)) == n
  {
    assert Pow10(7) == Unit;
    DecimalLength(n % Unit, 7);
    PadStartValue(Decimal(n % Unit), 7);
    DecimalValue(n % Unit);
    DecimalValue(n / Unit);
    var f := Printed(n).fraction;
    assert (f + Zeros(7))[..7] == f;
  }

  lemma PrintedReads(n: nat)
    ensures Read(Some(StroopsToDecimal(n))) == Some(Printed(n))
  {
    PrintedStroops(n);
    PartsOf(Printed(n).whole, Printed(n).fraction);
  }

  /** Reading a printed amount gives it back. */
  lemma PrintedReadsBack(n: nat)
    ensures ToStroopsOrZero(Some(StroopsToDecimal(n))) == n
  {
    PrintedReads(n);
    PrintedStroops(n);
  }

  // ---- What is read ------------------------------------------------------------------------------------------

  predicate SpaceBetween(s: string, i: nat, j: nat)
    requires j <= |s|
  {
    forall k :: i <= k < j ==> IsSpace(s[k])
  }

  /** The text stands at this place, with nothing but white space around it. */
  predicate SpacedAt(s: string, text: string, i: nat) {
    i + |text| <= |s| && s[i..i + |text|] == text && SpaceBetween(s, 0, i) && SpaceBetween(s, i + |text|, |s|)
  }

  ghost predicate Spaced(s: string, text: string) { exists i: nat :: SpacedAt(s, text, i) }

  /** Digits, or digits, a point and digits. */
  function Written(a: Amount): string { if a.fraction == [] then a.whole else a.whole + "." + a.fraction }

  predicate TightEnds(s: string) { s == "" || (!IsSpace(s[0]) && !IsSpace(s[|s| - 1])) }

  lemma {:induction false} TrimStartCuts(s: string)
    ensures var n := |s| - |TrimStart(s)|; n >= 0 && TrimStart(s) == s[n..] && SpaceBetween(s, 0, n)
    ensures TrimStart(s) == "" || !IsSpace(TrimStart(s)[0])
  {
    hide IsSpace;
    if s != "" && IsSpace(s[0]) {
      TrimStartCuts(s[1..]);
      assert forall k :: 1 <= k < |s| ==> s[k] == s[1..][k - 1];
    }
  }

  lemma {:induction false} TrimEndCuts(s: string)
    ensures var n := |TrimEnd(s)|; n <= |s| && TrimEnd(s) == s[..n] && SpaceBetween(s, n, |s|)
    ensures TrimEnd(s) == "" || !IsSpace(TrimEnd(s)[|TrimEnd(s)| - 1])
  {
    hide IsSpace;
    if s != "" && IsSpace(s[|s| - 1]) { TrimEndCuts(s[..|s| - 1]); }
  }

  lemma TrimCuts(s: string)
    ensures TightEnds(Trim(s)) && (Trim(s) != "" ==> Spaced(s, Trim(s)))
  {
    hide IsSpace, TrimStart, TrimEnd;
    var rest, cut := TrimStart(s), Trim(s);
    TrimStartCuts(s);
    TrimEndCuts(rest);
    var i := |s| - |rest|;
    assert forall k :: i <= k < |s| ==> s[k] == rest[k - i];
    if cut != "" {
      assert cut[0] == rest[0];
      assert SpacedAt(s, cut, i);
    }
  }

  lemma BlankTrims(s: string, text: string)
    requires Spaced(s, text) && text != "" && TightEnds(text)
    ensures Trim(s) != ""
  {
    hide IsSpace, TrimStart, TrimEnd;
    var i: nat :| SpacedAt(s, text, i);
    assert s[i] == text[0];
    TrimStartCuts(s);
    TrimEndCuts(TrimStart(s));
    assert TrimStart(s) != "";
  }

  /** White space around it leaves one place for a text whose ends are none. */
  lemma OnePlace(s: string, text: string, other: string, i: nat, k: nat)
    requires text != "" && TightEnds(text) && SpacedAt(s, text, i)
    requires other != "" && TightEnds(other) && SpacedAt(s, other, k)
    ensures text == other
  {
    hide IsSpace;
    assert s[i] == text[0] && s[k] == other[0];
    assert s[i + |text| - 1] == text[|text| - 1] && s[k + |other| - 1] == other[|other| - 1];
  }

  /** A text without white space at its ends is what trimming leaves exactly when only white space surrounds it. */
  lemma TrimIff(s: string, text: string)
    requires text != "" && TightEnds(text)
    ensures Trim(s) == text <==> Spaced(s, text)
  {
    hide Trim, TightEnds, SpacedAt;
    TrimCuts(s);
    if i: nat :| SpacedAt(s, text, i) {
      BlankTrims(s, text);
      var k: nat :| SpacedAt(s, Trim(s), k);
      OnePlace(s, text, Trim(s), i, k);
    }
  }

  lemma {:induction false} DotIsFirst(s: string)
    ensures '.' !in s[..Dot(s)] && (Dot(s) < |s| ==> s[Dot(s)] == '.')
  {
    if s != "" && s[0] != '.' { DotIsFirst(s[1..]); }
  }

  lemma {:induction false} NoDot(s: string)
    requires '.' !in s
    ensures Dot(s) == |s|
  {
    if s != "" { NoDot(s[1..]); }
  }

  lemma WrittenIff(s: string, a: Amount)
    ensures (WellFormed(s) && a == Amount(Whole(s), Fraction(s))) <==> a.whole != [] && s == Written(a)
  {
    DotIsFirst(s);
    if WellFormed(s) {
      assert s == if Dot(s) < |s| then Whole(s) + "." + Fraction(s) else Whole(s);
    }
    if a.whole != [] && s == Written(a) {
      if a.fraction == [] { NoDot(s); } else { PartsOf(a.whole, a.fraction); }
    }
  }

  /** An amount is read exactly from its digits with white space around them; anything else is not an amount. */
  lemma ReadIff(s: string, a: Amount)
    ensures Read(Some(s)) == Some(a) <==> a.whole != [] && Spaced(s, Written(a))
  {
    hide WellFormed, IsSpace, Whole, Fraction, TrimStart, TrimEnd;
    WrittenIff(Trim(s), a);
    if a.whole != [] {
      var text := Written(a);
      DigitNotSpace(a.whole[0]);
      DigitNotSpace(if a.fraction == [] then a.whole[|a.whole| - 1] else a.fraction[|a.fraction| - 1]);
      TrimIff(s, text);
    }
  }

  // ---- What an amount is worth -------------------------------------------------------------------------------

  /** The number an amount denotes, in stroops; zero for what cannot be read. */
  function Worth(a: Option<Amount>): real {
    if a.None? then 0.0
    else Value(a.value.whole + a.value.fraction) as real * Unit as real / Pow10(|a.value.fraction|) as real
  }

  predicate AtMostSevenDecimals(a: Option<Amount>) {
    a.Some? ==> forall i :: 7 <= i < |a.value.fraction| ==> a.value.fraction[i] == '0'
  }

  lemma CutAlgebra(w: nat, f: nat, h: nat, p: nat, r: nat)
    requires f * Unit == h * p + r
    ensures (w * p + f) * Unit == (w * Unit + h) * p + r
  {}

  /** Cutting the fraction at seven digits leaves a remainder of what was cut off. */
  lemma CutRemainder(w: seq<Digit>, f: seq<Digit>) returns (r: nat)
    ensures Value(w + f) * Unit == (Value(w) * Unit + Value((f + Zeros(7))[..7])) * Pow10(|f|) + r
    ensures r < Pow10(|f|)
    ensures r == 0 <==> forall i :: 7 <= i < |f| ==> f[i] == '0'
  {
    var padded := f + Zeros(7);
    var head, tail := padded[..7], padded[7..];
    r := Value(tail);
    assert padded == head + tail && Pow10(7) == Unit;
    ValueAppend(w, f);
    ValueAppend(f, Zeros(7));
    ValueZeroIff(Zeros(7));
    ValueAppend(head, tail);
    CutAlgebra(Value(w), Value(f), Value(head), Pow10(|f|), r);
    ValueBelow(tail);
    ValueZeroIff(tail);
    assert forall i :: 7 <= i < |f| ==> tail[i - 7] == f[i];
    assert forall i :: 0 <= i < |f| ==> tail[i] == if i + 7 < |f| then f[i + 7] else '0';
  }

  lemma DivideSum(t: real, r: real, p: real)
    requires p > 0.0
    ensures (t * p + r) / p == t + r / p
  {}

  lemma SignOf(x: real, p: real)
    requires p > 0.0
    ensures x * p < 0.0 <==> x < 0.0
    ensures x * p == 0.0 <==> x == 0.0
  {}

  lemma ProperFraction(r: real, p: real)
    requires 0.0 <= r < p
    ensures 0.0 <= r / p < 1.0 && (r / p == 0.0 <==> r == 0.0)
  {
    var q := r / p;
    assert r == q * p;
    SignOf(q, p);
    SignOf(q - 1.0, p);
  }

  lemma Quotient(n: nat, t: nat, p: nat, r: nat)
    requires p > 0 && n == t * p + r && r < p
    ensures t as real <= n as real / p as real < t as real + 1.0
    ensures n as real / p as real == t as real <==> r == 0
  {
    DivideSum(t as real, r as real, p as real);
    ProperFraction(r as real, p as real);
    assert n as real == t as real * p as real + r as real;
  }

  /** Reading rounds down to whole stroops, and loses nothing exactly when no digit past the seventh counts. */
  lemma ReadsRoundedDown(a: Option<Amount>)
    ensures StroopsOrZero(a) as real <= Worth(a) < StroopsOrZero(a) as real + 1.0
    ensures Worth(a) == StroopsOrZero(a) as real <==> AtMostSevenDecimals(a)
  {
    if a.Some? {
      var w, f := a.value.whole, a.value.fraction;
      var r := CutRemainder(w, f);
      Quotient(Value(w + f) * Unit, Stroops(a.value), Pow10(|f|), r);
    }
  }

  lemma PrintedWorth(n: nat)
    ensures Worth(Some(Printed(n))) == n as real
  {
    PrintedStroops(n);
    ReadsRoundedDown(Some(Printed(n)));
  }

  /** What the recipient reads in the computed refund. */
  lemma ComputedReads(amount: Option<string>, excess: Option<string>)
    ensures Read(Some(ComputeUsdcRefundAmount(amount, excess))) ==
            Some(Printed(ToStroopsOrZero(amount) + ToStroopsOrZero(excess)))
  {
    hide Read;
    PrintedReads(ToStroopsOrZero(amount) + ToStroopsOrZero(excess));
  }

  /** The sum, rounded down part by part and printed. */
  lemma SumWorth(a: Option<Amount>, b: Option<Amount>, n: nat)
    requires n == StroopsOrZero(a) + StroopsOrZero(b)
    ensures var refund, paid := Worth(Some(Printed(n))), Worth(a) + Worth(b);
            refund <= paid < refund + 2.0 && (refund == paid <==> AtMostSevenDecimals(a) && AtMostSevenDecimals(b))
  {
    ReadsRoundedDown(a);
    ReadsRoundedDown(b);
    PrintedWorth(n);
  }

  /**
   * The computed refund never exceeds what was paid, falls short by less than two stroops, and is exact up to
   * seven decimals and not beyond.
   */
  lemma RefundWorth(amount: Option<string>, excess: Option<string>)
    ensures var refund := Worth(Read(Some(ComputeUsdcRefundAmount(amount, excess))));
            var paid := Worth(Read(amount)) + Worth(Read(excess));
            refund <= paid < refund + 2.0
            && (refund == paid <==> AtMostSevenDecimals(Read(amount)) && AtMostSevenDecimals(Read(excess)))
  {
    hide Read;
    ComputedReads(amount, excess);
    SumWorth(Read(amount), Read(excess), ToStroopsOrZero(amount) + ToStroopsOrZero(excess));
  }

  // ---- What is sent ------------------------------------------------------------------------------------------

  function Pow2(n: nat): (p: nat)
    ensures p > 0
  {
    if n == 0 then 1 else 2 * Pow2(n - 1)
  }

  /** parseFloat(s) > 0: the number, here in stroops, does not round to zero as a double. */
  predicate PositiveDouble(stroops: real) { stroops * Pow2(1075) as real > Unit as real }

  predicate IsValidRefundAmount(s: Option<string>) { Read(s).Some? && PositiveDouble(Worth(Read(s))) }

  /** The amount handed to the sender, or nothing when the quoted amount is not valid. */
  function AmountToSend(amount: Option<string>, excess: Option<string>): Option<string> {
    if !IsValidRefundAmount(amount) then None
    else
      var refund := ComputeUsdcRefundAmount(amount, excess);
      if IsValidRefundAmount(Some(refund)) then Some(refund) else amount
  }

  lemma {:induction false} Pow2AtLeast(n: nat, k: nat)
    requires k <= n
    ensures Pow2(n) >= Pow2(k)
    decreases n - k
  {
    if k < n { Pow2AtLeast(n, k + 1); }
  }

  lemma {:induction false} Pow2Sum(a: nat, b: nat)
    ensures Pow2(a + b) == Pow2(a) * Pow2(b)
  {
    if a > 0 { Pow2Sum(a - 1, b); }
  }

  lemma BigPower()
    ensures Pow2(1075) > Unit
  {
    Pow2AtLeast(1075, 24);
    Pow2Sum(6, 6);
    Pow2Sum(12, 12);
    assert Pow2(6) == 64;
  }

  lemma TimesAtLeast(w: real, p: nat)
    requires w >= 1.0 && p > Unit
    ensures w * p as real > Unit as real
  {
    assert w * p as real >= p as real;
  }

  lemma PositiveDoublePositive(w: real)
    requires w >= 0.0 && PositiveDouble(w)
    ensures w > 0.0
  {}

  lemma WholeStroopsPositive(n: nat)
    ensures PositiveDouble(n as real) <==> n > 0
  {
    BigPower();
    if n > 0 { TimesAtLeast(n as real, Pow2(1075)); }
  }

  lemma PositiveDoubleGrows(v: real, w: real)
    requires v <= w && PositiveDouble(v)
    ensures PositiveDouble(w)
  {
    assert (w - v) * Pow2(1075) as real >= 0.0;
    assert w * Pow2(1075) as real == v * Pow2(1075) as real + (w - v) * Pow2(1075) as real;
  }

  /** A stroop or more is a valid amount; nothing, and what cannot be read, is not. */
  lemma ValidFromOneStroop(s: Option<string>)
    ensures Read(s).None? || Worth(Read(s)) == 0.0 ==> !IsValidRefundAmount(s)
    ensures ToStroopsOrZero(s) >= 1 ==> IsValidRefundAmount(s)
  {
    hide Read, Worth, PositiveDouble;
    var n := ToStroopsOrZero(s);
    ReadsRoundedDown(Read(s));
    WholeStroopsPositive(n);
    WholeStroopsPositive(0);
    if n >= 1 { PositiveDoubleGrows(n as real, Worth(Read(s))); }
  }

  /** Of a valid quoted amount the sum is sent, unless it comes to no stroop at all; without one nothing is sent. */
  lemma SentIs(amount: Option<string>, excess: Option<string>)
    ensures var n := ToStroopsOrZero(amount) + ToStroopsOrZero(excess);
            AmountToSend(amount, excess) ==
            if !IsValidRefundAmount(amount) then None else if n >= 1 then Some(StroopsToDecimal(n)) else amount
  {
    hide Read, Worth, PositiveDouble, StroopsToDecimal;
    var n := ToStroopsOrZero(amount) + ToStroopsOrZero(excess);
    ValidFromOneStroop(Some(StroopsToDecimal(n)));
    PrintedReadsBack(n);
    ComputedReads(amount, excess);
    PrintedWorth(n);
  }

  /** Whatever is sent is positive, never more than was paid, and less than two stroops short of it. */
  lemma SentWorth(amount: Option<string>, excess: Option<string>)
    requires IsValidRefundAmount(amount)
    ensures AmountToSend(amount, excess).Some?
    ensures var sent, paid := Worth(Read(AmountToSend(amount, excess))), Worth(Read(amount)) + Worth(Read(excess));
            0.0 < sent <= paid < sent + 2.0
            && (AtMostSevenDecimals(Read(amount)) && AtMostSevenDecimals(Read(excess)) ==> sent == paid)
  {
    hide Read, Worth, Printed, PositiveDouble;
    var n := ToStroopsOrZero(amount) + ToStroopsOrZero(excess);
    ReadsRoundedDown(Read(amount));
    ReadsRoundedDown(Read(excess));
    ComputedReads(amount, excess);
    SumWorth(Read(amount), Read(excess), n);
    PrintedWorth(n);
    WholeStroopsPositive(n);
    PositiveDoublePositive(Worth(Read(amount)));
  }
}
