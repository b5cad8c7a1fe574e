/**
 * Signing and verifying callbacks. The digest (HMAC-SHA256, section 2 of RFC 2104) is a parameter.
 * An empty secret, timestamp or header stands for a missing one too: the code treats both alike.
 */
module Hmac {
  import opened Common

  /** secret, payload -> hex digest */
  type Mac = (string, string) -> string

  // ---- Fields and payloads -----------------------------------------------------------------------------------

  predicate Digits(s: string) { s != "" && forall i :: 0 <= i < |s| ==> '0' <= s[i] <= '9' }

  predicate Canonical(field: string) {
    field != "" && forall i :: 0 <= i < |field| ==> field[i] != '.' && field[i] >= ' '
  }

  predicate CanonicalIfAny(field: Option<string>) { field.Some? ==> Canonical(field.value) }

  function Payload2(ts: string, orderId: string, body: string): string { ts + "." + (orderId + "." + body) }

  function Payload3(ts: string, orderId: string, nonce: string, body: string): string {
    ts + "." + (orderId + "." + (nonce + "." + body))
  }

  function PayloadOf(ts: string, orderId: string, nonce: Option<string>, body: string): string {
    if nonce.Some? then Payload3(ts, orderId, nonce.value, body) else Payload2(ts, orderId, body)
  }

  /** A timestamp is decimal digits; an order id or a nonce has no dot and no control character. */
  lemma FieldForms(s: string)
    ensures Digits(s) <==> s != "" && forall c :: c in s ==> c in "0123456789"
    ensures Canonical(s) <==> s != "" && '.' !in s && forall c :: c in s ==> c as int >= 32
  {
    assert Digits(s) ==> forall i :: 0 <= i < |s| ==> s[i] in "0123456789";
    assert forall i :: 0 <= i < |s| ==> s[i] in s;
    forall i | 0 <= i < |s| && s[i] in "0123456789" ensures '0' <= s[i] <= '9' {}
  }

  /** The first dot ends the first part. */
  lemma FirstDot(a: string, x: string, b: string, y: string)
    requires '.' !in a && '.' !in b
    ensures a + "." + x == b + "." + y <==> a == b && x == y
  {
    var s, t := a + "." + x, b + "." + y;
    if s == t {
      assert s[|a|] == '.' && t[|b|] == '.';
      assert forall i :: 0 <= i < |a| ==> s[i] == a[i];
      assert forall i :: 0 <= i < |b| ==> t[i] == b[i];
      assert a == s[..|a|] && b == t[..|b|];
      assert x == s[|a| + 1..] && y == t[|b| + 1..];
    }
  }

  lemma Payload2Injective(ts: string, o: string, b: string, ts': string, o': string, b': string)
    requires Digits(ts) && Digits(ts') && Canonical(o) && Canonical(o')
    ensures Payload2(ts, o, b) == Payload2(ts', o', b') <==> ts == ts' && o == o' && b == b'
  {
    FirstDot(ts, o + "." + b, ts', o' + "." + b');
    FirstDot(o, b, o', b');
  }

  lemma Payload3Injective(ts: string, o: string, n: string, b: string, ts': string, o': string, n': string, b': string)
    requires Digits(ts) && Digits(ts') && Canonical(o) && Canonical(o') && Canonical(n) && Canonical(n')
    ensures Payload3(ts, o, n, b) == Payload3(ts', o', n', b') <==> ts == ts' && o == o' && n == n' && b == b'
  {
    Payload2Injective(ts, o, n + "." + b, ts', o', n' + "." + b');
    FirstDot(n, b, n', b');
  }

  /** A payload without a nonce is one with a nonce exactly when its body starts with that nonce and a dot. */
  lemma VersionsCoincideIff(ts: string, o: string, b: string, ts': string, o': string, n: string, b': string)
    requires Digits(ts) && Digits(ts') && Canonical(o) && Canonical(o')
    ensures Payload2(ts, o, b) == Payload3(ts', o', n, b') <==> ts == ts' && o == o' && b == n + "." + b'
  {
    Payload2Injective(ts, o, b, ts', o', n + "." + b');
  }

  // ---- Signing -----------------------------------------------------------------------------------------------

  datatype Signing =
    | Hex(digest: string)
    | SecretRequired | TimestampRequired | OrderIdRequired | BodyRequired
    | TimestampNotDigits | OrderIdNotCanonical | NonceNotCanonical

  function Sign(mac: Mac, secret: string, ts: string, orderId: string, nonce: Option<string>,
                body: Option<string>): (r: Signing)
    ensures r.Hex? <==> secret != "" && Digits(ts) && Canonical(orderId) && CanonicalIfAny(nonce) && body.Some?
    ensures r == SecretRequired <==> secret == ""
    ensures r == TimestampRequired ==> ts == ""
    ensures r == OrderIdRequired ==> orderId == ""
    ensures r == BodyRequired ==> body.None?
    ensures r == TimestampNotDigits ==> ts != "" && !Digits(ts)
    ensures r == OrderIdNotCanonical ==> orderId != "" && !Canonical(orderId)
    ensures r == NonceNotCanonical ==> nonce.Some? && !Canonical(nonce.value)
  {
    if secret == "" then SecretRequired
    else if ts == "" then TimestampRequired
    else if orderId == "" then OrderIdRequired
    else if body.None? then BodyRequired
    else if !Digits(ts) then TimestampNotDigits
    else if !Canonical(orderId) then OrderIdNotCanonical
    else if !CanonicalIfAny(nonce) then NonceNotCanonical
    else Hex(mac(secret, PayloadOf(ts, orderId, nonce, body.value)))
  }

  // ---- Hex strings -----------------------------------------------------------------------------------------------

  predicate HexDigit(c: char) { '0' <= c <= '9' || 'a' <= c <= 'f' || 'A' <= c <= 'F' }

  predicate HexText(s: string) { s != "" && forall i :: 0 <= i < |s| ==> HexDigit(s[i]) }

  function Nibble(c: char): (n: nat)
    ensures n < 16
  {
    if '0' <= c <= '9' then (c - '0') as nat
    else if 'a' <= c <= 'f' then 10 + (c - 'a') as nat
    else if 'A' <= c <= 'F' then 10 + (c - 'A') as nat
    else 0
  }

  /** Buffer.from(s, 'hex'): a last single digit is dropped. */
  function Bytes(s: string): seq<nat> {
    if |s| < 2 then [] else [16 * Nibble(s[0]) + Nibble(s[1])] + Bytes(s[2..])
  }

  predicate SafeEqHex(a: string, b: string) {
    |a| == |b| && HexText(a) && HexText(b) && Bytes(a) == Bytes(b)
  }

  /** The first n digits are equal up to letter case. */
  predicate SameHex(a: string, b: string, n: nat)
    requires n <= |a| && n <= |b|
  {
    forall i :: 0 <= i < n ==> Nibble(a[i]) == Nibble(b[i])
  }

  lemma FirstByte(a: string, b: string)
    requires |a| == |b| >= 2
    ensures Bytes(a) == Bytes(b) <==> SameHex(a, b, 2) && Bytes(a[2..]) == Bytes(b[2..])
  {
    assert Bytes(a)[1..] == Bytes(a[2..]) && Bytes(b)[1..] == Bytes(b[2..]);
    assert Bytes(a)[0] == 16 * Nibble(a[0]) + Nibble(a[1]) && Bytes(b)[0] == 16 * Nibble(b[0]) + Nibble(b[1]);
  }

  lemma SameHexSplit(a: string, b: string, n: nat)
    requires |a| == |b| >= n + 2
    ensures SameHex(a, b, n + 2) <==> SameHex(a, b, 2) && SameHex(a[2..], b[2..], n)
  {
    assert forall i :: 0 <= i < n ==> a[2..][i] == a[i + 2] && b[2..][i] == b[i + 2];
    if SameHex(a, b, 2) && SameHex(a[2..], b[2..], n) {
      forall i | 0 <= i < n + 2 ensures Nibble(a[i]) == Nibble(b[i]) {
        assert i >= 2 ==> a[2..][i - 2] == a[i] && b[2..][i - 2] == b[i];
      }
    }
  }

  function Even(n: nat): nat { n - n % 2 }

  lemma {:induction false} BytesEqualIff(a: string, b: string)
    requires |a| == |b|
    ensures Bytes(a) == Bytes(b) <==> SameHex(a, b, Even(|a|))
  {
    if |a| >= 2 {
      var n := Even(|a| - 2);
      assert Even(|a|) == n + 2;
      BytesEqualIff(a[2..], b[2..]);
      FirstByte(a, b);
      SameHexSplit(a, b, n);
    }
  }

  const HexChars: string := "0123456789abcdefABCDEF"

  /** A hex digit, small or capital, is the place it has in the row of the digits. */
  lemma NibbleReads(c: char)
    ensures HexDigit(c) <==> c in HexChars
    ensures HexDigit(c) ==> "0123456789abcdef"[Nibble(c)] == c || "0123456789ABCDEF"[Nibble(c)] == c
  {
    if HexDigit(c) { assert HexChars[if c >= 'a' then Nibble(c) else Nibble(c) + if c >= 'A' then 6 else 0] == c; }
  }

  lemma HexTextIff(s: string)
    ensures HexText(s) <==> s != "" && forall c :: c in s ==> c in HexChars
  {
    hide HexDigit;
    forall c ensures HexDigit(c) <==> c in HexChars { NibbleReads(c); }
    assert forall i :: 0 <= i < |s| ==> s[i] in s;
  }

  /** On hex text of even length the comparison is equality up to letter case; an odd last digit is not compared. */
  lemma SafeEqHexIff(a: string, b: string)
    ensures SafeEqHex(a, b) <==> HexText(a) && HexText(b) && |a| == |b| && SameHex(a, b, Even(|a|))
  {
    if HexText(a) && HexText(b) && |a| == |b| { BytesEqualIff(a, b); }
  }

  // ---- Verifying -----------------------------------------------------------------------------------------------

  datatype Verification = Accepted(version: nat) | MissingFields | TimestampExpired | BadSignature

  datatype Request = Request(
    ts: string, header: string, orderId: Option<string>, nonce: Option<string>, body: Option<string>)

  function Number(s: string): nat {
    if s == "" then 0
    else
      var last := s[|s| - 1];
      10 * Number(s[..|s| - 1]) + if '0' <= last <= '9' then (last - '0') as nat else 0
  }

  function Pow2(n: nat): nat { if n == 0 then 1 else 2 * Pow2(n - 1) }

  /** The decimal rounds to a finite double. */
  predicate Finite(n: nat) { n + Pow2(970) < Pow2(1024) }

  const Prefix := "sha256="

  /** replace(/^sha256=/, '') */
  function Provided(header: string): string { if Prefix <= header then header[|Prefix|..] else header }

  function Verify(mac: Mac, secret: string, q: Request, maxSkew: nat, now: nat, requireV3: bool): Verification {
    if secret == "" || q.header == "" || q.ts == "" || q.body.None? then MissingFields
    else if !Digits(q.ts) then MissingFields
    else
      var t := Number(q.ts);
      if !Finite(t) then MissingFields
      else if now - t > maxSkew || t - now > maxSkew then TimestampExpired
      else
        var provided := Provided(q.header);
        if !HexText(provided) then BadSignature
        else if !CanonicalIfAny(q.orderId) || !CanonicalIfAny(q.nonce) then BadSignature
        else if q.orderId.Some? && q.nonce.Some?
          && SafeEqHex(provided, Sign(mac, secret, q.ts, q.orderId.value, q.nonce, q.body).digest) then Accepted(3)
        else if requireV3 then BadSignature
        else if q.orderId.Some?
          && SafeEqHex(provided, Sign(mac, secret, q.ts, q.orderId.value, None, q.body).digest) then Accepted(2)
        else BadSignature
  }

  /** What SHA-256 in hex gives: 32 bytes in lower case. */
  predicate HexDigest(d: string) { |d| == 64 && forall i :: 0 <= i < 64 ==> '0' <= d[i] <= '9' || 'a' <= d[i] <= 'f' }

  ghost predicate Digests(mac: Mac) { forall s: string, p: string :: HexDigest(mac(s, p)) }

  /** No other payload has the digest of this one. */
  ghost predicate Unique(mac: Mac, secret: string, payload: string) {
    forall p: string :: mac(secret, p) == mac(secret, payload) ==> p == payload
  }

  lemma DigestIsPlainHex(d: string)
    requires HexDigest(d)
    ensures HexText(d) && Provided(d) == d && Provided(Prefix + d) == d
  {
    assert HexDigit(d[0]);
    assert Prefix[1] == 'h' && d[1] != 'h';
  }

  /** Lower-case digests that are the same hex are the same text. */
  lemma SameDigest(d: string, e: string)
    requires HexDigest(d) && HexDigest(e)
    ensures SafeEqHex(d, e) <==> d == e
  {
    hide SafeEqHex;
    SafeEqHexIff(d, e);
    DigestIsPlainHex(d);
    DigestIsPlainHex(e);
    assert SameHex(d, e, 64) ==> forall i :: 0 <= i < 64 ==> d[i] == e[i];
  }

  /** Every signature verifies while its timestamp is in the window, as version 3 if it was made with the nonce. */
  lemma SignedIsAccepted(mac: Mac, secret: string, q: Request, digest: string, maxSkew: nat, now: nat, requireV3: bool)
    requires q.orderId.Some? && Sign(mac, secret, q.ts, q.orderId.value, q.nonce, q.body) == Hex(digest)
    requires Digests(mac) && Timely(q.ts, now, maxSkew)
    requires q.header == digest || q.header == Prefix + digest
    ensures Verify(mac, secret, q, maxSkew, now, requireV3) ==
            if q.nonce.Some? then Accepted(3) else if requireV3 then BadSignature else Accepted(2)
  {
    DigestIsPlainHex(digest);
    SameDigest(digest, digest);
  }

  /** The signed payload of the first fields is the payload of the others. */
  predicate Covers(ts: string, o: string, n: Option<string>, b: string, ts': string, o': string, n': Option<string>,
                   b': string) {
    ts == ts' && o == o'
    && (if n.Some? && n'.Some? then n == n' && b == b'
        else if n.Some? then b' == n.value + "." + b
        else if n'.Some? then b == n'.value + "." + b'
        else b == b')
  }

  lemma CoversIff(ts: string, o: string, n: Option<string>, b: string, ts': string, o': string, n': Option<string>,
                  b': string)
    requires Digits(ts) && Digits(ts') && Canonical(o) && Canonical(o') && CanonicalIfAny(n) && CanonicalIfAny(n')
    ensures PayloadOf(ts, o, n, b) == PayloadOf(ts', o', n', b') <==> Covers(ts, o, n, b, ts', o', n', b')
  {
    match (n, n')
    case (Some(x), Some(y)) => Payload3Injective(ts, o, x, b, ts', o', y, b');
    case (Some(x), None) => VersionsCoincideIff(ts', o', b', ts, o, x, b);
    case (None, Some(y)) => VersionsCoincideIff(ts, o, b, ts', o', y, b');
    case (None, None) => Payload2Injective(ts, o, b, ts', o', b');
  }

  /** A digest matches the one computed from other fields exactly when it covers them. */
  lemma MatchIff(mac: Mac, secret: string, ts: string, o: string, n: Option<string>, b: string,
                 ts': string, o': string, n': Option<string>, b': string)
    requires Digits(ts) && Digits(ts') && Canonical(o) && Canonical(o') && CanonicalIfAny(n) && CanonicalIfAny(n')
    requires Digests(mac) && Unique(mac, secret, PayloadOf(ts, o, n, b))
    ensures SafeEqHex(mac(secret, PayloadOf(ts, o, n, b)), mac(secret, PayloadOf(ts', o', n', b')))
            <==> Covers(ts, o, n, b, ts', o', n', b')
  {
    CoversIff(ts, o, n, b, ts', o', n', b');
    SameDigest(mac(secret, PayloadOf(ts, o, n, b)), mac(secret, PayloadOf(ts', o', n', b')));
  }

  /** The header carries the digest of the request's fields, with the given nonce. */
  predicate Matches(mac: Mac, secret: string, q: Request, nonce: Option<string>) {
    q.orderId.Some? && q.body.Some?
    && SafeEqHex(Provided(q.header), mac(secret, PayloadOf(q.ts, q.orderId.value, nonce, q.body.value)))
  }

  /** The timestamp is a number the runtime can hold, and at most the skew before or after the clock. */
  predicate Timely(ts: string, now: nat, maxSkew: nat) {
    Digits(ts) && Finite(Number(ts)) && now <= Number(ts) + maxSkew && Number(ts) <= now + maxSkew
  }

  /** Each refusal has its reason, and nothing is accepted outside the window, with a field missing or out of form. */
  lemma RefusalsIff(mac: Mac, secret: string, q: Request, maxSkew: nat, now: nat, requireV3: bool)
    ensures var answer := Verify(mac, secret, q, maxSkew, now, requireV3);
            var missing := secret == "" || q.header == "" || q.body.None? || !Digits(q.ts) || !Finite(Number(q.ts));
            && (answer == MissingFields <==> missing)
            && (answer == TimestampExpired <==> !missing && !Timely(q.ts, now, maxSkew))
            && (answer.Accepted? ==>
                  && !missing && Timely(q.ts, now, maxSkew) && HexText(Provided(q.header))
                  && q.orderId.Some? && Canonical(q.orderId.value) && CanonicalIfAny(q.nonce)
                  && ((answer.version == 3 && q.nonce.Some?) || (answer.version == 2 && !requireV3)))
  {}

  /** The timestamp is read as decimal digits. */
  lemma NumberReads(s: string, c: char)
    requires '0' <= c <= '9'
    ensures Number("") == 0 && Number(s + [c]) == 10 * Number(s) + (c - '0') as nat
  {
    assert (s + [c])[..|s|] == s;
  }

  lemma VerifyCases(mac: Mac, secret: string, q: Request, maxSkew: nat, now: nat, requireV3: bool)
    requires secret != "" && q.header != "" && HexText(Provided(q.header))
    requires Timely(q.ts, now, maxSkew)
    ensures Verify(mac, secret, q, maxSkew, now, requireV3) ==
            if q.body.None? then MissingFields
            else if !CanonicalIfAny(q.orderId) || !CanonicalIfAny(q.nonce) then BadSignature
            else if q.nonce.Some? && Matches(mac, secret, q, q.nonce) then Accepted(3)
            else if !requireV3 && Matches(mac, secret, q, None) then Accepted(2)
            else BadSignature
  {}

  /** The answer to a request that carries a digest of other fields, in the window of its own timestamp. */
  lemma TimelyAnswer(
    mac: Mac, secret: string, ts: string, orderId: string, nonce: Option<string>, body: string,
    q: Request, maxSkew: nat, now: nat, requireV3: bool)
    requires secret != "" && Digits(ts) && Canonical(orderId) && CanonicalIfAny(nonce)
    requires Digests(mac) && Unique(mac, secret, PayloadOf(ts, orderId, nonce, body))
    requires Sign(mac, secret, ts, orderId, nonce, Some(body)) == Hex(Provided(q.header))
    requires Timely(q.ts, now, maxSkew) && Presents(q)
    ensures Verify(mac, secret, q, maxSkew, now, requireV3) ==
            if q.nonce.Some? && Covers(ts, orderId, nonce, body, q.ts, q.orderId.value, q.nonce, q.body.value)
            then Accepted(3)
            else if !requireV3 && Covers(ts, orderId, nonce, body, q.ts, q.orderId.value, None, q.body.value)
            then Accepted(2)
            else BadSignature
  {
    hide Verify, Covers, Unique, Digests, PayloadOf, SafeEqHex, Sign;
    DigestIsSigned(mac, secret, ts, orderId, nonce, body, Provided(q.header));
    DigestIsPlainHex(Provided(q.header));
    VerifyCases(mac, secret, q, maxSkew, now, requireV3);
    if Canonical(q.orderId.value) {
      MatchIff(mac, secret, ts, orderId, nonce, body, q.ts, q.orderId.value, None, q.body.value);
      MatchIff(mac, secret, ts, orderId, nonce, body, q.ts, q.orderId.value, q.nonce, q.body.value);
    }
    CoversOwn(ts, orderId, nonce, body, q.ts, q.orderId.value, None, q.body.value);
    CoversOwn(ts, orderId, nonce, body, q.ts, q.orderId.value, q.nonce, q.body.value);
  }

  /**
   * What a signature is good for. Presented with any request at any time, it is accepted as version 3 exactly when
   * the signed time is in the window and time, order, nonce and body are the signed ones, or it was made without a
   * nonce over nonce "." body; as version 2 exactly when the caller allows it, the signed time is in the window and
   * the payload without the nonce is the signed one.
   */
  lemma AcceptedIff(
    mac: Mac, secret: string, ts: string, orderId: string, nonce: Option<string>, body: string,
    q: Request, maxSkew: nat, now: nat, requireV3: bool)
    requires secret != "" && Digits(ts) && Canonical(orderId) && CanonicalIfAny(nonce)
    requires Digests(mac) && Unique(mac, secret, PayloadOf(ts, orderId, nonce, body))
    requires Sign(mac, secret, ts, orderId, nonce, Some(body)) == Hex(Provided(q.header))
    ensures Verify(mac, secret, q, maxSkew, now, requireV3) == Accepted(3) <==>
            Timely(ts, now, maxSkew) && Presents(q)
            && q.nonce.Some? && Covers(ts, orderId, nonce, body, q.ts, q.orderId.value, q.nonce, q.body.value)
    ensures Verify(mac, secret, q, maxSkew, now, requireV3) == Accepted(2) <==>
            !requireV3 && Timely(ts, now, maxSkew) && Presents(q)
            && Covers(ts, orderId, nonce, body, q.ts, q.orderId.value, None, q.body.value)
            && !(q.nonce.Some? && Covers(ts, orderId, nonce, body, q.ts, q.orderId.value, q.nonce, q.body.value))
  {
    hide Verify, Covers, Unique, Digests, PayloadOf, SafeEqHex, Sign, HexText, Provided, Timely;
    RefusalsIff(mac, secret, q, maxSkew, now, requireV3);
    if q.orderId.Some? && q.body.Some? {
      CoversOwn(ts, orderId, nonce, body, q.ts, q.orderId.value, None, q.body.value);
      CoversOwn(ts, orderId, nonce, body, q.ts, q.orderId.value, q.nonce, q.body.value);
    }
    if Timely(q.ts, now, maxSkew) && Presents(q) {
      TimelyAnswer(mac, secret, ts, orderId, nonce, body, q, maxSkew, now, requireV3);
    }
  }

  /** The request has a body, an order id, and no nonce that is out of form. */
  predicate Presents(q: Request) { q.orderId.Some? && q.body.Some? && CanonicalIfAny(q.nonce) }

  lemma CoversOwn(ts: string, o: string, n: Option<string>, b: string, ts': string, o': string, n': Option<string>,
                  b': string)
    ensures Covers(ts, o, n, b, ts', o', n', b') ==> ts' == ts && o' == o
  {}

  lemma DigestIsSigned(mac: Mac, secret: string, ts: string, orderId: string, nonce: Option<string>, body: string,
                       d: string)
    requires Digests(mac) && Sign(mac, secret, ts, orderId, nonce, Some(body)) == Hex(d)
    ensures d == mac(secret, PayloadOf(ts, orderId, nonce, body)) && HexDigest(d)
  {}

  /** On one body the versions never pass for each other. */
  lemma NoVersionConfusion(
    mac: Mac, secret: string, ts: string, orderId: string, nonce: Option<string>, body: string,
    q: Request, maxSkew: nat, now: nat, requireV3: bool)
    requires secret != "" && Digits(ts) && Canonical(orderId) && CanonicalIfAny(nonce)
    requires Digests(mac) && Unique(mac, secret, PayloadOf(ts, orderId, nonce, body))
    requires Sign(mac, secret, ts, orderId, nonce, Some(body)) == Hex(Provided(q.header)) && q.body == Some(body)
    ensures Verify(mac, secret, q, maxSkew, now, requireV3).Accepted? <==>
            Timely(ts, now, maxSkew) && q.ts == ts && q.orderId == Some(orderId)
            && (if nonce.Some? then q.nonce == nonce else !requireV3 && CanonicalIfAny(q.nonce))
    ensures Verify(mac, secret, q, maxSkew, now, requireV3).Accepted? ==>
            Verify(mac, secret, q, maxSkew, now, requireV3).version == if nonce.Some? then 3 else 2
  {
    hide Verify, Unique, Digests, PayloadOf, Timely;
    AcceptedIff(mac, secret, ts, orderId, nonce, body, q, maxSkew, now, requireV3);
    RefusalsIff(mac, secret, q, maxSkew, now, requireV3);
    assert nonce.Some? ==> |nonce.value + "." + body| > |body|;
    assert q.nonce.Some? ==> |q.nonce.value + "." + body| > |body|;
  }
}
