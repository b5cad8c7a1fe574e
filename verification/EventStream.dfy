/**
 * The SDK's reader of the order stream: chunks are normalised, appended to a buffer and cut at blank lines.
 * Line ends are those of section 9.2.5 of the HTML Living Standard: CR LF, LF and CR.
 */
module EventStream {
  import opened Common

  type Text = string

  // ---- Line ends -----------------------------------------------------------------------------------------

  predicate AtCrLf(s: Text) { |s| >= 2 && s[0] == '\r' && s[1] == '\n' }

  /** replace(/\r\n/g, '\n') */
  function CrLfToLf(s: Text): Text {
    if s == [] then []
    else if AtCrLf(s) then ['\n'] + CrLfToLf(s[2..])
    else [s[0]] + CrLfToLf(s[1..])
  }

  /** replace(/\r/g, '\n') */
  function CrToLf(s: Text): Text {
    if s == [] then [] else [if s[0] == '\r' then '\n' else s[0]] + CrToLf(s[1..])
  }

  function Normalise(s: Text): Text { CrToLf(CrLfToLf(s)) }

  /** A CR ends one part and an LF starts the next. */
  predicate SplitsCrLf(a: Text, b: Text) { a != [] && b != [] && a[|a| - 1] == '\r' && b[0] == '\n' }

  lemma {:induction false} CrToLfAppend(a: Text, b: Text)
    ensures CrToLf(a + b) == CrToLf(a) + CrToLf(b)
  {
    if a == [] {
      assert a + b == b;
    } else {
      hide CrToLf;
      var end := if a[0] == '\r' then '\n' else a[0];
      CrToLfAppend(a[1..], b);
      assert (a + b)[1..] == a[1..] + b && (a + b)[0] == a[0];
      CrUnfolds(a);
      CrUnfolds(a + b);
      assert [end] + (CrToLf(a[1..]) + CrToLf(b)) == CrToLf(a) + CrToLf(b);
    }
  }

  lemma CrUnfolds(s: Text)
    requires s != []
    ensures CrToLf(s) == [if s[0] == '\r' then '\n' else s[0]] + CrToLf(s[1..])
  {}

  /** What the first character, or the first CR LF, becomes, and where the rest starts. */
  function Width(s: Text): nat { if AtCrLf(s) then 2 else 1 }

  lemma CrLfUnfolds(s: Text)
    requires s != []
    ensures Width(s) <= |s| && CrLfToLf(s) == [if AtCrLf(s) then '\n' else s[0]] + CrLfToLf(s[Width(s)..])
  {}

  lemma FrontOfAppend(a: Text, b: Text)
    requires a != [] && !(|a| == 1 && SplitsCrLf(a, b))
    ensures AtCrLf(a + b) == AtCrLf(a) && Width(a) <= |a| && (a + b)[0] == a[0]
    ensures (a + b)[Width(a)..] == a[Width(a)..] + b
    ensures SplitsCrLf(a[Width(a)..], b) ==> SplitsCrLf(a, b)
    ensures |a| > Width(a) && SplitsCrLf(a, b) ==> SplitsCrLf(a[Width(a)..], b)
  {}

  lemma {:induction false} CrLfToLfAppend(a: Text, b: Text)
    requires !SplitsCrLf(a, b)
    ensures CrLfToLf(a + b) == CrLfToLf(a) + CrLfToLf(b)
    decreases |a|
  {
    if a == [] {
      assert a + b == b;
    } else {
      hide CrLfToLf, AtCrLf, Width, SplitsCrLf;
      var w, first := Width(a), if AtCrLf(a) then '\n' else a[0];
      StartsNotSplit(a, b);
      FrontOfAppend(a, b);
      CrLfUnfolds(a);
      CrLfUnfolds(a + b);
      CrLfToLfAppend(a[w..], b);
      Prepended(first, CrLfToLf(a[w..]), CrLfToLf(b));
    }
  }

  lemma StartsNotSplit(a: Text, b: Text)
    requires !SplitsCrLf(a, b) && a != []
    ensures Width(a) <= |a| && !SplitsCrLf(a[Width(a)..], b)
  {}

  lemma Prepended(c: char, s: Text, t: Text)
    ensures [c] + (s + t) == ([c] + s) + t
  {}

  /** Every CR LF pair takes one unit off the length. */
  lemma {:induction false} SplitPairIsLonger(a: Text, b: Text)
    requires SplitsCrLf(a, b)
    ensures |CrLfToLf(a + b)| == |CrLfToLf(a)| + |CrLfToLf(b)| - 1
    decreases |a|
  {
    CrLfUnfolds(a);
    CrLfUnfolds(a + b);
    if |a| == 1 {
      CrLfUnfolds(b);
      assert AtCrLf(a + b) && (a + b)[2..] == b[1..];
    } else {
      FrontOfAppend(a, b);
      SplitPairIsLonger(a[Width(a)..], b);
    }
  }

  lemma {:induction false} CrToLfLength(s: Text)
    ensures |CrToLf(s)| == |s|
  {
    if s != [] { CrToLfLength(s[1..]); }
  }

  /** Normalising two parts apart is normalising them together exactly when no CR LF is cut between them. */
  lemma NormaliseApartIff(a: Text, b: Text)
    ensures Normalise(a + b) == Normalise(a) + Normalise(b) <==> !SplitsCrLf(a, b)
  {
    CrToLfAppend(CrLfToLf(a), CrLfToLf(b));
    if SplitsCrLf(a, b) {
      SplitPairIsLonger(a, b);
      CrToLfLength(CrLfToLf(a + b));
      CrToLfLength(CrLfToLf(a));
      CrToLfLength(CrLfToLf(b));
    } else {
      CrLfToLfAppend(a, b);
    }
  }

  // ---- Events ------------------------------------------------------------------------------------------------

  predicate BlankAt(s: Text, i: nat) { i + 1 < |s| && s[i] == '\n' && s[i + 1] == '\n' }

  /** indexOf('\n\n'), as the length of the text when there is none. */
  function BlankLine(s: Text, from: nat): (i: nat)
    requires from <= |s|
    ensures from <= i <= |s| && (i < |s| ==> BlankAt(s, i))
    ensures forall j :: from <= j < i ==> !BlankAt(s, j)
    decreases |s| - from
  {
    if from == |s| || BlankAt(s, from) then from else BlankLine(s, from + 1)
  }

  /** The complete events of a text: what stands before each blank line, from left to right. */
  function Events(s: Text): seq<Text>
    decreases |s|
  {
    var i := BlankLine(s, 0);
    if i == |s| then [] else [s[..i]] + Events(s[i + 2..])
  }

  /** What is left behind the last blank line. */
  function Rest(s: Text): Text
    decreases |s|
  {
    var i := BlankLine(s, 0);
    if i == |s| then s else Rest(s[i + 2..])
  }

  lemma FirstBlankLineStays(s: Text, c: Text)
    requires BlankLine(s, 0) < |s|
    ensures var i := BlankLine(s, 0);
            BlankLine(s + c, 0) == i < |s + c| && (s + c)[..i] == s[..i] && (s + c)[i + 2..] == s[i + 2..] + c
  {
    var i, k := BlankLine(s, 0), BlankLine(s + c, 0);
    assert BlankAt(s, i) && BlankAt(s + c, i);
    assert forall j :: 0 <= j < i ==> BlankAt(s + c, j) ==> BlankAt(s, j);
  }

  lemma CutFirst(s: Text)
    requires BlankLine(s, 0) < |s|
    ensures var i := BlankLine(s, 0); Events(s) == [s[..i]] + Events(s[i + 2..]) && Rest(s) == Rest(s[i + 2..])
  {
    hide BlankAt, BlankLine;
    FirstEvent(s);
    FirstRest(s);
  }

  lemma FirstEvent(s: Text)
    requires BlankLine(s, 0) < |s|
    ensures Events(s) == [s[..BlankLine(s, 0)]] + Events(s[BlankLine(s, 0) + 2..])
  {
    hide BlankLine, Rest;
  }

  lemma FirstRest(s: Text)
    requires BlankLine(s, 0) < |s|
    ensures Rest(s) == Rest(s[BlankLine(s, 0) + 2..])
  {
    hide BlankLine, Events;
  }

  lemma CutNone(s: Text)
    requires BlankLine(s, 0) == |s|
    ensures Events(s) == [] && Rest(s) == s
  {}

  /** Cutting a text and cutting on from what was left of its first part give the same events. */
  lemma {:induction false} EventsAppend(s: Text, c: Text)
    ensures Events(s + c) == Events(s) + Events(Rest(s) + c)
    ensures Rest(s + c) == Rest(Rest(s) + c)
    decreases |s|
  {
    hide Events, Rest;
    var i := BlankLine(s, 0);
    if i == |s| {
      CutNone(s);
    } else {
      FirstBlankLineStays(s, c);
      CutFirst(s);
      CutFirst(s + c);
      EventsAppend(s[i + 2..], c);
    }
  }

  // ---- What an event says --------------------------------------------------------------------------------------

  /**
   * A phase payload after JSON.parse. `JsonNull` has no properties to read; `OrderFailed` stands for the phases
   * failed, refunded and rejected; `Progress` is every other payload.
   */
  datatype Payload = NotJson | JsonNull | Ready(card: nat) | OrderFailed(error: nat) | OrderExpired | Progress

  datatype Outcome = Card(card: nat) | FailedWith(error: nat) | Expired | TypeErrorThrown | StreamEnded | BufferOverflow

  predicate IsDataLine(line: Text) { "data: " <= line }

  /** split('\n') */
  function Lines(s: Text): seq<Text> {
    var i := LineEnd(s, 0);
    if i == |s| then [s] else [s[..i]] + Lines(s[i + 1..])
  }

  function LineEnd(s: Text, from: nat): (i: nat)
    requires from <= |s|
    ensures from <= i <= |s| && (i < |s| ==> s[i] == '\n')
    ensures forall j :: from <= j < i ==> s[j] != '\n'
    decreases |s| - from
  {
    if from == |s| || s[from] == '\n' then from else LineEnd(s, from + 1)
  }

  function FirstData(lines: seq<Text>): Option<Text> {
    if lines == [] then None
    else if IsDataLine(lines[0]) then Some(lines[0][6..])
    else FirstData(lines[1..])
  }

  /** What the client returns or throws on an event, if it is terminal. */
  function Verdict(raw: Text, parse: Text -> Payload): (o: Option<Outcome>)
    ensures o.Some? ==> o.value.Card? || o.value.FailedWith? || o.value.Expired? || o.value.TypeErrorThrown?
  {
    match FirstData(Lines(raw))
    case None => None
    case Some(json) =>
      match parse(json)
      case Ready(card) => Some(Card(card))
      case OrderFailed(error) => Some(FailedWith(error))
      case OrderExpired => Some(Expired)
      case JsonNull => Some(TypeErrorThrown)
      case _ => None
  }

  /** The first terminal event decides; without one the end of the stream does. */
  function FirstVerdict(events: seq<Text>, parse: Text -> Payload): (o: Outcome)
    ensures o != BufferOverflow
    ensures o == StreamEnded <==> NoVerdict(events, parse)
  {
    if events == [] then StreamEnded
    else
      match Verdict(events[0], parse)
      case Some(outcome) => outcome
      case None => FirstVerdict(events[1..], parse)
  }

  predicate NoVerdict(events: seq<Text>, parse: Text -> Payload) {
    forall i :: 0 <= i < |events| ==> Verdict(events[i], parse).None?
  }

  lemma {:induction false} FirstVerdictAppend(a: seq<Text>, b: seq<Text>, parse: Text -> Payload)
    requires NoVerdict(a, parse)
    ensures FirstVerdict(a + b, parse) == FirstVerdict(b, parse)
  {
    if a == [] {
      assert a + b == b;
    } else {
      FirstVerdictAppend(a[1..], b, parse);
      assert (a + b)[1..] == a[1..] + b;
    }
  }

  // ---- What a stream says, by positions in its text ------------------------------------------------------------

  const DataTag: Text := "data: "

  /** A data line starts at this position. */
  predicate DataAt(e: Text, k: nat) { k <= |e| && (k == 0 || e[k - 1] == '\n') && DataTag <= e[k..] }

  predicate Dataless(e: Text) { forall k :: 0 <= k <= |e| ==> !DataAt(e, k) }

  /** The text up to the end of the first line. */
  predicate LineStart(s: Text, line: Text) {
    '\n' !in line && line <= s && (|line| == |s| || s[|line|] == '\n')
  }

  /** The first data line of the event starts at this position, and this text stands behind its tag. */
  predicate CarriesAt(e: Text, k: nat, json: Text) {
    && DataAt(e, k)
    && (forall j :: 0 <= j < k ==> !DataAt(e, j))
    && LineStart(e[k + 6..], json)
  }

  predicate Carries(e: Text, json: Text) { exists k :: 0 <= k <= |e| && CarriesAt(e, k, json) }

  /** The event decides nothing: no data line, or one that is not JSON or reports progress. */
  ghost predicate Silent(e: Text, parse: Text -> Payload) {
    Dataless(e) || exists json :: Carries(e, json) && (parse(json).NotJson? || parse(json).Progress?)
  }

  ghost predicate AllSilent(events: seq<Text>, parse: Text -> Payload) {
    forall i :: 0 <= i < |events| ==> Silent(events[i], parse)
  }

  predicate NoBlankLine(s: Text) { forall j :: 0 <= j < |s| ==> !BlankAt(s, j) }

  /** The first blank line stands behind this text. */
  predicate EndsFirst(s: Text, e: Text) {
    e <= s && BlankAt(s, |e|) && forall j :: 0 <= j < |e| ==> !BlankAt(s, j)
  }

  /** Each event reaches up to the first blank line left, and none is left in the rest. */
  predicate SplitsInto(s: Text, events: seq<Text>, rest: Text) {
    if events == [] then s == rest && NoBlankLine(s)
    else EndsFirst(s, events[0]) && SplitsInto(s[|events[0]| + 2..], events[1..], rest)
  }

  lemma LineOnce(s: Text, line: Text, other: Text)
    requires LineStart(s, line) && LineStart(s, other)
    ensures line == other
  {
    assert forall j :: 0 <= j < |line| ==> s[j] == line[j];
    assert forall j :: 0 <= j < |other| ==> s[j] == other[j];
  }

  /** An event has one first data line at most. */
  lemma CarriesOnce(e: Text, json: Text, other: Text)
    requires Carries(e, json)
    ensures !Dataless(e) && (Carries(e, other) ==> other == json)
  {
    var k :| 0 <= k <= |e| && CarriesAt(e, k, json);
    if Carries(e, other) {
      var l :| 0 <= l <= |e| && CarriesAt(e, l, other);
      assert l == k;
      LineOnce(e[k + 6..], json, other);
    }
  }

  /** Data lines behind the first line. */
  lemma DataBehind(e: Text, i: nat, k: nat)
    requires i < |e| && e[i] == '\n' && k <= |e| - i - 1
    ensures DataAt(e, i + 1 + k) <==> DataAt(e[i + 1..], k)
  {
    assert e[i + 1 + k..] == e[i + 1..][k..];
  }

  lemma NoDataInside(e: Text, k: nat)
    requires 0 < k <= LineEnd(e, 0)
    ensures !DataAt(e, k)
  {}

  lemma DataFirst(e: Text)
    ensures DataAt(e, 0) <==> IsDataLine(e[..LineEnd(e, 0)])
  {
    var i := LineEnd(e, 0);
    if DataAt(e, 0) {
      assert forall j :: 0 <= j < 6 ==> e[j] == DataTag[j] != '\n';
      assert i >= 6;
    }
  }

  /** Behind a first line without data, the data lines are those of what follows. */
  lemma DataOfTail(e: Text)
    requires LineEnd(e, 0) < |e| && !IsDataLine(e[..LineEnd(e, 0)])
    ensures var i := LineEnd(e, 0) + 1;
            && (forall k :: 0 <= k < i ==> !DataAt(e, k))
            && (forall k :: i <= k <= |e| ==> (DataAt(e, k) <==> DataAt(e[i..], k - i)))
  {
    hide DataAt;
    var i := LineEnd(e, 0) + 1;
    DataFirst(e);
    forall k | 0 < k < i ensures !DataAt(e, k) { NoDataInside(e, k); }
    forall k | i <= k <= |e| ensures DataAt(e, k) <==> DataAt(e[i..], k - i) { DataBehind(e, i - 1, k - i); }
  }

  lemma CarriesInTail(e: Text, k: nat, json: Text)
    requires LineEnd(e, 0) < |e| && !IsDataLine(e[..LineEnd(e, 0)])
    requires k < |e| - LineEnd(e, 0) && CarriesAt(e[LineEnd(e, 0) + 1..], k, json)
    ensures CarriesAt(e, LineEnd(e, 0) + 1 + k, json)
  {
    hide DataAt, LineStart, IsDataLine;
    var i := LineEnd(e, 0) + 1;
    DataOfTail(e);
    assert |e[i..]| >= k + 6 by { DataTagFits(e[i..], k); }
    assert e[i + k + 6..] == e[i..][k + 6..];
    forall j | i <= j < i + k ensures !DataAt(e, j) { assert !DataAt(e[i..], j - i); }
  }

  lemma DataTagFits(e: Text, k: nat)
    requires DataAt(e, k)
    ensures k + 6 <= |e|
  {}

  lemma CarriesInFirst(e: Text)
    requires IsDataLine(e[..LineEnd(e, 0)])
    ensures CarriesAt(e, 0, e[..LineEnd(e, 0)][6..])
  {
    var i := LineEnd(e, 0);
    DataFirst(e);
    var json := e[..i][6..];
    assert json == e[6..][..i - 6];
    assert |e[6..]| == |e| - 6 && (i < |e| ==> e[6..][i - 6] == e[i]);
  }

  lemma {:induction false} FirstDataFound(e: Text)
    ensures match FirstData(Lines(e)) case None => Dataless(e) case Some(json) => Carries(e, json)
    decreases |e|
  {
    hide CarriesAt, DataAt;
    var i := LineEnd(e, 0);
    assert Lines(e)[0] == e[..i];
    if IsDataLine(e[..i]) {
      CarriesInFirst(e);
    } else if i == |e| {
      assert FirstData(Lines(e)[1..]).None?;
      DataFirst(e);
      forall k | 0 < k <= |e| ensures !DataAt(e, k) { NoDataInside(e, k); }
    } else {
      var tail := e[i + 1..];
      FirstDataFound(tail);
      assert Lines(e)[1..] == Lines(tail);
      DataOfTail(e);
      match FirstData(Lines(tail)) {
        case None =>
          forall k | i < k <= |e| ensures !DataAt(e, k) { assert !DataAt(tail, k - i - 1); }
        case Some(json) =>
          var k :| 0 <= k <= |tail| && CarriesAt(tail, k, json);
          CarriesInTail(e, k, json);
      }
    }
  }

  /** What an event decides, by the payload it carries. */
  lemma VerdictOn(e: Text, json: Text, parse: Text -> Payload)
    requires Carries(e, json)
    ensures Verdict(e, parse) ==
            match parse(json)
            case Ready(card) => Some(Card(card))
            case OrderFailed(error) => Some(FailedWith(error))
            case OrderExpired => Some(Expired)
            case JsonNull => Some(TypeErrorThrown)
            case NotJson => None
            case Progress => None
  {
    hide Carries, Dataless;
    FirstDataFound(e);
    var found := FirstData(Lines(e));
    CarriesOnce(e, json, if found.Some? then found.value else json);
  }

  lemma SilentIff(e: Text, parse: Text -> Payload)
    ensures Silent(e, parse) <==> Verdict(e, parse).None?
  {
    hide Carries, Dataless;
    FirstDataFound(e);
    if json :| Carries(e, json) {
      CarriesOnce(e, json, json);
      forall other | Carries(e, other) ensures other == json { CarriesOnce(e, json, other); }
      VerdictOn(e, json, parse);
    }
  }

  lemma AllSilentIff(events: seq<Text>, parse: Text -> Payload)
    ensures AllSilent(events, parse) <==> NoVerdict(events, parse)
  {
    hide Silent, Verdict;
    forall i | 0 <= i < |events| ensures Silent(events[i], parse) <==> Verdict(events[i], parse).None? {
      SilentIff(events[i], parse);
    }
  }

  lemma EndsFirstIff(s: Text, e: Text)
    requires BlankLine(s, 0) < |s|
    ensures EndsFirst(s, e) <==> e == s[..BlankLine(s, 0)]
  {}

  lemma NothingSplits(s: Text, events: seq<Text>, rest: Text)
    requires BlankLine(s, 0) == |s|
    ensures SplitsInto(s, events, rest) <==> events == [] && rest == s
  {}

  lemma SplitsFirst(s: Text, events: seq<Text>, rest: Text)
    requires BlankLine(s, 0) < |s|
    ensures var i := BlankLine(s, 0);
            SplitsInto(s, events, rest) <==>
            events != [] && events[0] == s[..i] && SplitsInto(s[i + 2..], events[1..], rest)
  {
    hide EndsFirst, BlankLine;
    if events != [] {
      EndsFirstIff(s, events[0]);
    } else {
      assert BlankAt(s, BlankLine(s, 0));
    }
  }

  lemma {:induction false} SplitIsEvents(s: Text, events: seq<Text>, rest: Text)
    ensures SplitsInto(s, events, rest) <==> Events(s) == events && Rest(s) == rest
    decreases |s|
  {
    hide SplitsInto, Events, Rest, BlankLine;
    var i := BlankLine(s, 0);
    if i == |s| {
      CutNone(s);
      NothingSplits(s, events, rest);
    } else {
      CutFirst(s);
      SplitsFirst(s, events, rest);
      if events != [] {
        SplitIsEvents(s[i + 2..], events[1..], rest);
        FirstAndRest(s[..i], Events(s[i + 2..]), events);
      }
    }
  }

  lemma FirstAndRest(first: Text, others: seq<Text>, events: seq<Text>)
    requires events != []
    ensures [first] + others == events <==> first == events[0] && others == events[1..]
  {
    assert events == [events[0]] + events[1..];
    assert ([first] + others)[1..] == others;
  }

  /** The first event that is not silent decides. */
  lemma FirstDecides(events: seq<Text>, n: nat, json: Text, parse: Text -> Payload)
    requires n < |events| && AllSilent(events[..n], parse) && Carries(events[n], json)
    requires !parse(json).NotJson? && !parse(json).Progress?
    ensures Some(FirstVerdict(events, parse)) == Verdict(events[n], parse)
  {
    AllSilentIff(events[..n], parse);
    VerdictOn(events[n], json, parse);
    VerdictStands(events, events, n, parse);
  }

  // ---- The reader --------------------------------------------------------------------------------------------

  function Joined(chunks: seq<Text>): Text {
    if chunks == [] then [] else Joined(chunks[..|chunks| - 1]) + chunks[|chunks| - 1]
  }

  /** No chunk boundary falls inside a CR LF pair. */
  predicate CleanlyCut(chunks: seq<Text>) {
    forall n :: 0 <= n < |chunks| ==> !SplitsCrLf(Joined(chunks[..n]), chunks[n])
  }

  const BufferCap: nat := 1048576

  /** With the n-th chunk appended, the buffer is over its cap. */
  predicate OverflowsAt(chunks: seq<Text>, n: nat) {
    n < |chunks| && |Rest(Normalise(Joined(chunks[..n]))) + Normalise(chunks[n])| > BufferCap
  }

  /** The buffer goes over its cap while no event before it decided. */
  ghost predicate OverflowsUndecided(chunks: seq<Text>, parse: Text -> Payload) {
    exists n: nat :: OverflowsAt(chunks, n) && AllSilent(Events(Normalise(Joined(chunks[..n]))), parse)
  }

  /** The outcome of cutting the whole normalised stream at once. */
  function Whole(chunks: seq<Text>, parse: Text -> Payload): Outcome {
    FirstVerdict(Events(Normalise(Joined(chunks))), parse)
  }

  lemma JoinedStep(chunks: seq<Text>, n: nat)
    requires n < |chunks| && CleanlyCut(chunks)
    ensures Joined(chunks[..n + 1]) == Joined(chunks[..n]) + chunks[n]
    ensures Normalise(Joined(chunks[..n + 1])) == Normalise(Joined(chunks[..n])) + Normalise(chunks[n])
  {
    assert chunks[..n + 1][..n] == chunks[..n];
    NormaliseApartIff(Joined(chunks[..n]), chunks[n]);
  }

  /** The events of a prefix of the chunks are the first events of the whole stream. */
  lemma {:induction false} PrefixEvents(chunks: seq<Text>, n: nat)
    requires n <= |chunks| && CleanlyCut(chunks)
    ensures Events(Normalise(Joined(chunks[..n]))) <= Events(Normalise(Joined(chunks)))
    decreases |chunks| - n
  {
    if n == |chunks| {
      assert chunks[..n] == chunks;
    } else {
      JoinedStep(chunks, n);
      EventsAppend(Normalise(Joined(chunks[..n])), Normalise(chunks[n]));
      PrefixEvents(chunks, n + 1);
    }
  }

  lemma EventsGrow(chunks: seq<Text>, n: nat, m: nat)
    requires n <= m <= |chunks| && CleanlyCut(chunks)
    ensures Events(Normalise(Joined(chunks[..n]))) <= Events(Normalise(Joined(chunks[..m])))
  {
    hide Normalise, Events, Joined, SplitsCrLf;
    var part := chunks[..m];
    assert forall l :: 0 <= l <= m ==> part[..l] == chunks[..l];
    assert CleanlyCut(part);
    PrefixEvents(part, n);
  }

  /** A verdict on an event of a prefix is the verdict on the whole stream. */
  lemma VerdictStands(events: seq<Text>, whole: seq<Text>, i: nat, parse: Text -> Payload)
    requires events <= whole && i < |events| && NoVerdict(events[..i], parse) && Verdict(events[i], parse).Some?
    ensures FirstVerdict(whole, parse) == Verdict(events[i], parse).value
  {
    assert whole == events[..i] + whole[i..];
    FirstVerdictAppend(events[..i], whole[i..], parse);
  }

  /** The inner loop: events are cut off the front of the buffer until one is terminal or none is complete. */
  method CutEvents(start: Text, parse: Text -> Payload) returns (outcome: Option<Outcome>, buffer: Text)
    ensures outcome == if NoVerdict(Events(start), parse) then None else Some(FirstVerdict(Events(start), parse))
    ensures outcome.None? ==> buffer == Rest(start)
  {
    hide Verdict;
    buffer := start;
    ghost var done: seq<Text> := [];
    var idx := BlankLine(buffer, 0);
    while idx < |buffer|
      invariant idx == BlankLine(buffer, 0)
      invariant Events(start) == done + Events(buffer) && Rest(start) == Rest(buffer)
      invariant NoVerdict(done, parse)
      decreases |buffer|
    {
      var raw := buffer[..idx];
      buffer := buffer[idx + 2..];
      assert Events(start)[|done|] == raw && Events(start)[..|done|] == done;
      match Verdict(raw, parse) {
        case Some(o) =>
          VerdictStands(Events(start), Events(start), |done|, parse);
          return Some(o), buffer;
        case None =>
      }
      done := done + [raw];
      idx := BlankLine(buffer, 0);
    }
    outcome := None;
    assert Events(start) == done;
  }

  /** Reading one more chunk continues the events seen so far, and what it decides the whole stream decides. */
  lemma ChunkContinues(chunks: seq<Text>, n: nat, buffer: Text, parse: Text -> Payload)
    requires n < |chunks| && CleanlyCut(chunks) && buffer == Rest(Normalise(Joined(chunks[..n]))) + Normalise(chunks[n])
    requires NoVerdict(Events(Normalise(Joined(chunks[..n]))), parse)
    ensures Rest(buffer) == Rest(Normalise(Joined(chunks[..n + 1])))
    ensures NoVerdict(Events(buffer), parse) ==> NoVerdict(Events(Normalise(Joined(chunks[..n + 1]))), parse)
    ensures !NoVerdict(Events(buffer), parse) ==> FirstVerdict(Events(buffer), parse) == Whole(chunks, parse)
  {
    hide Normalise, Events, Rest, Joined, FirstVerdict, CleanlyCut;
    var seen, all := Normalise(Joined(chunks[..n])), Events(Normalise(Joined(chunks)));
    JoinedStep(chunks, n);
    EventsAppend(seen, Normalise(chunks[n]));
    PrefixEvents(chunks, n + 1);
    assert Events(seen) + Events(buffer) <= all;
    if !NoVerdict(Events(buffer), parse) {
      var tail := all[|Events(seen)|..];
      assert all == Events(seen) + tail && Events(buffer) <= tail;
      FirstVerdictAppend(Events(seen), tail, parse);
      PrefixDecides(Events(buffer), tail, parse);
    }
  }

  lemma {:induction false} PrefixDecides(a: seq<Text>, whole: seq<Text>, parse: Text -> Payload)
    requires a <= whole && !NoVerdict(a, parse)
    ensures FirstVerdict(whole, parse) == FirstVerdict(a, parse)
  {
    if Verdict(a[0], parse).None? { PrefixDecides(a[1..], whole[1..], parse); }
  }

  lemma NothingRead(chunks: seq<Text>, parse: Text -> Payload)
    ensures Rest(Normalise(Joined(chunks[..0]))) == [] && NoVerdict(Events(Normalise(Joined(chunks[..0]))), parse)
  {
    assert chunks[..0] == [] && BlankLine([], 0) == 0;
  }

  /** A chunk whose events decide ends the reading, whatever the later chunks do to the buffer. */
  lemma DecidedFirst(chunks: seq<Text>, n: nat, buffer: Text, parse: Text -> Payload)
    requires n < |chunks| && CleanlyCut(chunks) && buffer == Rest(Normalise(Joined(chunks[..n]))) + Normalise(chunks[n])
    requires !NoVerdict(Events(buffer), parse) && forall k :: 0 <= k <= n ==> !OverflowsAt(chunks, k)
    ensures !OverflowsUndecided(chunks, parse)
  {
    hide Normalise, Events, Rest, FirstVerdict, AllSilent, Verdict, Joined, CleanlyCut;
    var seen := Normalise(Joined(chunks[..n]));
    JoinedStep(chunks, n);
    EventsAppend(seen, Normalise(chunks[n]));
    var decided := Events(Normalise(Joined(chunks[..n + 1])));
    assert decided == Events(seen) + Events(buffer);
    var i :| 0 <= i < |Events(buffer)| && Verdict(Events(buffer)[i], parse).Some?;
    assert decided[|Events(seen)| + i] == Events(buffer)[i];
    forall m: nat | n < m < |chunks| ensures !AllSilent(Events(Normalise(Joined(chunks[..m]))), parse) {
      EventsGrow(chunks, n + 1, m);
      AllSilentIff(Events(Normalise(Joined(chunks[..m]))), parse);
    }
  }

  /**
   * The read loop. However the stream is cut into chunks, as long as no cut separates CR from LF and the
   * buffer stays under its cap until an event decides, the outcome is that of cutting the whole stream at once.
   */
  method ReadStream(chunks: seq<Text>, parse: Text -> Payload) returns (r: Outcome)
    requires CleanlyCut(chunks)
    ensures r != BufferOverflow ==> r == Whole(chunks, parse)
    ensures r == BufferOverflow <==> OverflowsUndecided(chunks, parse)
  {
    hide Normalise, Events, Rest, Joined, FirstVerdict, CleanlyCut, AllSilent, NoVerdict, Verdict;
    var buffer: Text := [];
    NothingRead(chunks, parse);
    for n := 0 to |chunks|
      invariant buffer == Rest(Normalise(Joined(chunks[..n])))
      invariant NoVerdict(Events(Normalise(Joined(chunks[..n]))), parse)
      invariant forall k :: 0 <= k < n ==> !OverflowsAt(chunks, k)
    {
      buffer := buffer + Normalise(chunks[n]);
      if |buffer| > BufferCap {
        AllSilentIff(Events(Normalise(Joined(chunks[..n]))), parse);
        assert OverflowsAt(chunks, n);
        return BufferOverflow;
      }
      ChunkContinues(chunks, n, buffer, parse);
      var outcome, rest := CutEvents(buffer, parse);
      if outcome.Some? {
        DecidedFirst(chunks, n, buffer, parse);
        return outcome.value;
      }
      buffer := rest;
    }
    assert chunks[..|chunks|] == chunks;
    r := StreamEnded;
  }

  /** What the reader answers on a stream whose text splits into these events, the n-th of them the first to decide. */
  method ReadAnswers(chunks: seq<Text>, parse: Text -> Payload, ghost events: seq<Text>, ghost rest: Text,
                     ghost n: nat, ghost json: Text) returns (r: Outcome)
    requires CleanlyCut(chunks) && forall k :: !OverflowsAt(chunks, k)
    requires SplitsInto(Normalise(Joined(chunks)), events, rest)
    requires n <= |events| && AllSilent(events[..n], parse)
    requires n < |events| ==> Carries(events[n], json) && !parse(json).NotJson? && !parse(json).Progress?
    ensures n == |events| ==> r == StreamEnded
    ensures n < |events| ==>
              match parse(json)
              case Ready(card) => r == Card(card)
              case OrderFailed(error) => r == FailedWith(error)
              case OrderExpired => r == Expired
              case JsonNull => r == TypeErrorThrown
  {
    hide Normalise, Events, Rest, Joined, FirstVerdict, CleanlyCut, AllSilent, Verdict, Carries, SplitsInto;
    r := ReadStream(chunks, parse);
    SplitIsEvents(Normalise(Joined(chunks)), events, rest);
    if n < |events| {
      FirstDecides(events, n, json, parse);
      VerdictOn(events[n], json, parse);
    } else {
      assert events[..n] == events;
      AllSilentIff(events, parse);
    }
  }

  /** Two chunkings of one stream that meet the conditions read the same. */
  method ReadTwice(a: seq<Text>, b: seq<Text>, parse: Text -> Payload) returns (r: Outcome, q: Outcome)
    requires CleanlyCut(a) && CleanlyCut(b) && Joined(a) == Joined(b)
    requires forall n :: !OverflowsAt(a, n)
    requires forall n :: !OverflowsAt(b, n)
    ensures r == q
  {
    r := ReadStream(a, parse);
    q := ReadStream(b, parse);
  }

  lemma {:induction false} PlainUnchanged(s: Text)
    requires '\r' !in s
    ensures CrLfToLf(s) == s && CrToLf(s) == s
  {
    if s != [] { PlainUnchanged(s[1..]); }
  }

  lemma NormaliseBeforeLine(before: Text, end: Text)
    requires '\r' !in before
    ensures Normalise(before + end) == before + Normalise(end)
  {
    PlainUnchanged(before);
    NormaliseApartIff(before, end);
  }

  lemma NormaliseLineEnds(after: Text)
    requires '\r' !in after && '\n' !in after
    ensures Normalise("\r") == "\n" && Normalise("\n" + after) == "\n" + after
            && Normalise("\r\n" + after) == "\n" + after
  {
    PlainUnchanged(after);
    PlainUnchanged("\n" + after);
    assert ("\r\n" + after)[2..] == after;
    assert CrLfToLf("\r\n" + after) == "\n" + after;
    assert CrLfToLf("\r") == "\r" + CrLfToLf([]);
    assert CrToLf("\r") == "\n" + CrToLf([]);
  }

  /** Cut inside a CR LF, one line end becomes a blank line: an event ends that the stream does not end. */
  lemma CutLineEndEndsEvent(before: Text, after: Text)
    requires '\n' !in before && '\r' !in before && '\n' !in after && '\r' !in after
    ensures Events(Normalise(before + ("\r\n" + after))) == []
    ensures Events(Normalise(before + "\r") + Normalise("\n" + after)) == [before]
  {
    NormaliseLineEnds(after);
    NormaliseBeforeLine(before, "\r\n" + after);
    NormaliseBeforeLine(before, "\r");
    var whole, cut := before + ("\n" + after), before + "\n" + ("\n" + after);
    assert forall j :: 0 <= j < |whole| ==> !BlankAt(whole, j);
    assert BlankAt(cut, |before|) && forall j :: 0 <= j < |before| ==> !BlankAt(cut, j);
    assert cut[..|before|] == before && cut[|before| + 2..] == after;
    assert forall j :: 0 <= j < |after| ==> !BlankAt(after, j);
  }
}
