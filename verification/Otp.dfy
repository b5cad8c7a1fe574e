/**
 * Login codes: minting, redemption and lockout. Times are seconds, as SQL's datetime() compares them.
 * A row's id is the place of its minting in the log of what happened.
 */
module Otp {
  import opened Common

  const CodeTtl: nat := 900
  const CodeMaxPerWindow: nat := 3
  const FailedAttemptLimit: nat := 5

  datatype Code = Code(email: string, hash: string, expires: nat, used: bool, failed: nat)

  /** What happened: codes made, wrong codes presented, with whether that locked the email out, and codes redeemed. */
  datatype Event =
    | Minted(email: string, hash: string, at: nat)
    | Failed(email: string, lockedOut: bool)
    | Redeemed(email: string, hash: string)

  type Rows = map<nat, Code>

  predicate Active(c: Code, now: nat) { !c.used && c.expires > now }

  predicate ActiveFor(c: Code, email: string, now: nat) { c.email == email && Active(c, now) }

  function ActiveIds(rows: Rows, email: string, now: nat): set<nat> {
    set id | id in rows && ActiveFor(rows[id], email, now)
  }

  /** Failed verifications for an email since a place in the log. */
  function FailuresSince(log: seq<Event>, from: nat, email: string): nat {
    if |log| <= from then 0
    else FailuresSince(log[..|log| - 1], from, email) + if FailureOf(log[|log| - 1], email) then 1 else 0
  }

  predicate FailureOf(e: Event, email: string) { e.Failed? && e.email == email }

  predicate MintingOf(e: Event, email: string, hash: string) { e.Minted? && e.email == email && e.hash == hash }

  /** The event ends the life of a code: its redemption, or a lockout of its email. */
  predicate Spends(e: Event, email: string, hash: string) {
    e == Redeemed(email, hash) || e == Failed(email, true)
  }

  predicate UnspentSince(log: seq<Event>, id: nat, email: string, hash: string) {
    forall j :: id < j < |log| ==> !Spends(log[j], email, hash)
  }

  /** By the log alone: minted for the email in the last fifteen minutes, and neither redeemed nor locked out since. */
  predicate Live(log: seq<Event>, id: nat, email: string, now: nat) {
    && id < |log| && log[id].Minted? && log[id].email == email
    && now < log[id].at + 15 * 60
    && UnspentSince(log, id, email, log[id].hash)
  }

  function LiveIds(log: seq<Event>, email: string, now: nat): set<nat> {
    set id: nat | id < |log| && Live(log, id, email, now)
  }

  // ---- The invariant -----------------------------------------------------------------------------------------

  /** A row is that of its minting, is used once the code is spent, and counts the failures since while it is active. */
  predicate Tracked(id: nat, c: Code, log: seq<Event>, now: nat) {
    && id < |log| && MintingOf(log[id], c.email, c.hash) && c.expires == log[id].at + CodeTtl
    && (c.expires > now ==> (c.used <==> !UnspentSince(log, id, c.email, c.hash)))
    && (Active(c, now) ==> c.failed == FailuresSince(log, id, c.email) < FailedAttemptLimit)
  }

  /** Only expired codes lose their rows. */
  predicate Kept(rows: Rows, log: seq<Event>, now: nat) {
    forall id :: 0 <= id < |log| && log[id].Minted? && id !in rows ==> log[id].at + CodeTtl <= now
  }

  predicate NotRedeemedSince(log: seq<Event>, id: nat, email: string, hash: string) {
    forall j :: id < j < |log| ==> log[j] != Redeemed(email, hash)
  }

  /** Each redemption has a minting of its own before it. */
  predicate RedeemedAfterMint(log: seq<Event>, k: nat)
    requires k < |log|
  {
    log[k].Redeemed? ==>
      exists m :: 0 <= m < k && MintingOf(log[m], log[k].email, log[k].hash)
             && NotRedeemedSince(log[..k], m, log[k].email, log[k].hash)
  }

  ghost predicate Inv(rows: Rows, log: seq<Event>, now: nat) {
    && (forall id :: id in rows ==> Tracked(id, rows[id], log, now))
    && (forall email :: |ActiveIds(rows, email, now)| <= CodeMaxPerWindow)
    && (forall k :: 0 <= k < |log| ==> RedeemedAfterMint(log, k))
    && Kept(rows, log, now)
  }

  /** The active rows of an email are the codes the log leaves alive. */
  lemma ActiveIsLive(rows: Rows, log: seq<Event>, now: nat, email: string)
    requires Inv(rows, log, now)
    ensures ActiveIds(rows, email, now) == LiveIds(log, email, now)
  {
    forall id: nat ensures id in ActiveIds(rows, email, now) <==> id in LiveIds(log, email, now) {
      if id in rows { assert Tracked(id, rows[id], log, now); }
    }
  }

  lemma RedeemableIsLive(rows: Rows, log: seq<Event>, now: nat, email: string, hash: string)
    requires Inv(rows, log, now)
    ensures (exists id :: id in rows && Redeemable(rows[id], email, hash, now)) <==>
            (exists id: nat :: Live(log, id, email, now) && log[id].hash == hash)
  {
    ActiveIsLive(rows, log, now, email);
    if id :| id in rows && Redeemable(rows[id], email, hash, now) {
      assert id in ActiveIds(rows, email, now);
      assert Live(log, id, email, now) && Tracked(id, rows[id], log, now);
    }
    if id: nat :| Live(log, id, email, now) && log[id].hash == hash {
      assert id in LiveIds(log, email, now);
      assert Tracked(id, rows[id], log, now);
    }
  }

  lemma {:induction false} SubsetSize(a: set<nat>, b: set<nat>)
    requires a <= b
    ensures |a| <= |b|
  {
    if a != {} {
      var x :| x in a;
      SubsetSize(a - {x}, b - {x});
    }
  }

  /** Rows may stop being active or be dropped; nothing else of them matters to the cap. */
  lemma CapKept(rows: Rows, rows': Rows, now: nat, now': nat)
    requires forall email :: |ActiveIds(rows, email, now)| <= CodeMaxPerWindow
    requires forall id :: id in rows' ==> id in rows && rows'[id].email == rows[id].email
                                          && (Active(rows'[id], now') ==> Active(rows[id], now))
    ensures forall email :: |ActiveIds(rows', email, now')| <= CodeMaxPerWindow
  {
    forall email ensures |ActiveIds(rows', email, now')| <= CodeMaxPerWindow {
      SubsetSize(ActiveIds(rows', email, now'), ActiveIds(rows, email, now));
    }
  }

  lemma LogGrows(log: seq<Event>, e: Event)
    requires forall k :: 0 <= k < |log| ==> RedeemedAfterMint(log, k)
    requires e.Redeemed? ==>
               exists m :: 0 <= m < |log| && MintingOf(log[m], e.email, e.hash)
                      && NotRedeemedSince(log, m, e.email, e.hash)
    ensures forall k :: 0 <= k < |log| + 1 ==> RedeemedAfterMint(log + [e], k)
  {
    var log' := log + [e];
    forall k | 0 <= k < |log'| ensures RedeemedAfterMint(log', k) {
      assert log'[..k] == log[..k];
      if k < |log| {
        assert RedeemedAfterMint(log, k);
      } else {
        assert log[..k] == log;
      }
    }
  }

  /** The invariant survives the passing of time and the pruning of expired rows. */
  lemma TimeKeepsInv(rows: Rows, rows': Rows, log: seq<Event>, now: nat, later: nat)
    requires Inv(rows, log, now) && now <= later
    requires forall id :: id in rows' ==> id in rows && rows'[id] == rows[id]
    requires forall id :: id in rows && id !in rows' ==> rows[id].expires <= later
    ensures Inv(rows', log, later)
  {
    CapKept(rows, rows', now, later);
    forall id | id in rows' ensures Tracked(id, rows'[id], log, later) {
      assert Tracked(id, rows[id], log, now);
    }
    forall id | 0 <= id < |log| && log[id].Minted? && id !in rows' ensures log[id].at + CodeTtl <= later {
      if id in rows { assert Tracked(id, rows[id], log, now); }
    }
  }

  lemma UnspentGrows(log: seq<Event>, e: Event, id: nat, email: string, hash: string)
    requires id < |log|
    ensures UnspentSince(log + [e], id, email, hash) <==> UnspentSince(log, id, email, hash) && !Spends(e, email, hash)
  {
    var log' := log + [e];
    assert forall j :: 0 <= j < |log| ==> log'[j] == log[j];
    assert log'[|log|] == e;
  }

  // ---- Minting -----------------------------------------------------------------------------------------------

  lemma MintAddsActive(rows: Rows, id: nat, c: Code, now: nat, rows': Rows, email: string)
    requires id !in rows && rows' == rows[id := c]
    ensures ActiveIds(rows', email, now) == ActiveIds(rows, email, now) + if ActiveFor(c, email, now) then {id} else {}
  {
    hide ActiveFor;
  }

  lemma MintKeepsCap(rows: Rows, id: nat, c: Code, now: nat, rows': Rows)
    requires id !in rows && rows' == rows[id := c] && |ActiveIds(rows, c.email, now)| < CodeMaxPerWindow
    requires forall email :: |ActiveIds(rows, email, now)| <= CodeMaxPerWindow
    ensures forall email :: |ActiveIds(rows', email, now)| <= CodeMaxPerWindow
  {
    hide ActiveIds;
    forall email ensures |ActiveIds(rows', email, now)| <= CodeMaxPerWindow {
      MintAddsActive(rows, id, c, now, rows', email);
    }
  }

  lemma MintTracked(id: nat, c: Code, log: seq<Event>, now: nat, e: Event)
    requires e.Minted?
    requires if id == |log|
             then MintingOf(e, c.email, c.hash) && c.expires == e.at + CodeTtl && c.failed == 0 && !c.used
             else Tracked(id, c, log, now)
    ensures Tracked(id, c, log + [e], now)
  {
    var log' := log + [e];
    assert log'[..|log|] == log;
  }

  lemma MintKeepsInv(rows: Rows, log: seq<Event>, now: nat, email: string, hash: string)
    requires Inv(rows, log, now) && |ActiveIds(rows, email, now)| < CodeMaxPerWindow
    ensures Inv(rows[|log| := Code(email, hash, now + CodeTtl, false, 0)], log + [Minted(email, hash, now)], now)
  {
    var c, e := Code(email, hash, now + CodeTtl, false, 0), Minted(email, hash, now);
    assert |log| in rows ==> Tracked(|log|, rows[|log|], log, now);
    var rows', log' := rows[|log| := c], log + [e];
    forall id | id in rows' ensures Tracked(id, rows'[id], log', now) {
      MintTracked(id, rows'[id], log, now, e);
    }
    MintKeepsCap(rows, |log|, c, now, rows');
    LogGrows(log, e);
  }

  // ---- Redeeming -----------------------------------------------------------------------------------------------

  predicate Redeemable(c: Code, email: string, hash: string, now: nat) { ActiveFor(c, email, now) && c.hash == hash }

  function Redeem(rows: Rows, email: string, hash: string, now: nat): Rows {
    map id | id in rows :: if Redeemable(rows[id], email, hash, now) then rows[id].(used := true) else rows[id]
  }

  lemma RedeemKeepsInv(rows: Rows, log: seq<Event>, now: nat, email: string, hash: string)
    requires Inv(rows, log, now) && exists id :: id in rows && Redeemable(rows[id], email, hash, now)
    ensures Inv(Redeem(rows, email, hash, now), log + [Redeemed(email, hash)], now)
  {
    var rows', log' := Redeem(rows, email, hash, now), log + [Redeemed(email, hash)];
    forall id | id in rows' ensures Tracked(id, rows'[id], log', now) {
      assert Tracked(id, rows[id], log, now);
      assert log'[..|log|] == log;
      UnspentGrows(log, Redeemed(email, hash), id, rows[id].email, rows[id].hash);
    }
    CapKept(rows, rows', now, now);
    var id :| id in rows && Redeemable(rows[id], email, hash, now);
    assert Tracked(id, rows[id], log, now);
    LogGrows(log, Redeemed(email, hash));
  }

  // ---- Failing -------------------------------------------------------------------------------------------------

  function CountFailure(rows: Rows, email: string, now: nat): Rows {
    map id | id in rows ::
      if ActiveFor(rows[id], email, now) then rows[id].(failed := rows[id].failed + 1) else rows[id]
  }

  predicate LimitReached(rows: Rows, email: string, now: nat) {
    exists id :: id in rows && ActiveFor(rows[id], email, now) && rows[id].failed >= FailedAttemptLimit
  }

  /** UPDATE … WHERE email = ? AND used_at IS NULL: expired rows too. */
  function LockOut(rows: Rows, email: string): Rows {
    map id | id in rows :: if rows[id].email == email then rows[id].(used := true) else rows[id]
  }

  function AfterFailure(rows: Rows, email: string, now: nat): Rows {
    var counted := CountFailure(rows, email, now);
    if LimitReached(counted, email, now) then LockOut(counted, email) else counted
  }

  predicate LocksOut(rows: Rows, email: string, now: nat) { LimitReached(CountFailure(rows, email, now), email, now) }

  lemma FailKeepsInv(rows: Rows, log: seq<Event>, now: nat, email: string)
    requires Inv(rows, log, now)
    ensures Inv(AfterFailure(rows, email, now), log + [Failed(email, LocksOut(rows, email, now))], now)
  {
    var rows', log' := AfterFailure(rows, email, now), log + [Failed(email, LocksOut(rows, email, now))];
    var counted := CountFailure(rows, email, now);
    forall id | id in rows' ensures Tracked(id, rows'[id], log', now) {
      assert Tracked(id, rows[id], log, now);
      assert log'[..|log|] == log;
      UnspentGrows(log, Failed(email, LocksOut(rows, email, now)), id, rows[id].email, rows[id].hash);
      assert ActiveFor(rows[id], email, now) ==>
             ActiveFor(counted[id], email, now) && counted[id].failed == rows[id].failed + 1;
    }
    CapKept(rows, rows', now, now);
    LogGrows(log, Failed(email, LocksOut(rows, email, now)));
  }

  /** Lockout strikes when a live code meets its fifth failure. */
  lemma LimitReachedIff(rows: Rows, log: seq<Event>, now: nat, email: string)
    requires Inv(rows, log, now)
    ensures LocksOut(rows, email, now) <==> exists id: nat :: Live(log, id, email, now) && FifthFailure(log, id, email)
  {
    var counted := CountFailure(rows, email, now);
    ActiveIsLive(rows, log, now, email);
    assert forall id :: id in rows ==> Tracked(id, rows[id], log, now);
    assert forall id :: id in rows ==> ActiveFor(counted[id], email, now) == ActiveFor(rows[id], email, now);
    if id: nat :| Live(log, id, email, now) && FifthFailure(log, id, email) {
      assert id in LiveIds(log, email, now);
      assert counted[id].failed >= FailedAttemptLimit;
    }
    if LimitReached(counted, email, now) {
      var id :| id in counted && ActiveFor(counted[id], email, now) && counted[id].failed >= FailedAttemptLimit;
      assert id in ActiveIds(rows, email, now);
      assert Live(log, id, email, now) && FifthFailure(log, id, email);
    }
  }

  predicate FifthFailure(log: seq<Event>, id: nat, email: string) {
    FailuresSince(log, id, email) == 4
  }

  // ---- What follows ------------------------------------------------------------------------------------------------

  /** Between two redemptions of one code it was minted again: a minted code is redeemed at most once. */
  lemma MintedBetween(rows: Rows, log: seq<Event>, now: nat, j: nat, k: nat) returns (m: nat)
    requires Inv(rows, log, now) && j < k < |log| && log[j].Redeemed? && log[j] == log[k]
    ensures j < m < k && MintingOf(log[m], log[k].email, log[k].hash)
  {
    assert RedeemedAfterMint(log, k);
    m :| 0 <= m < k && MintingOf(log[m], log[k].email, log[k].hash)
      && NotRedeemedSince(log[..k], m, log[k].email, log[k].hash);
    assert log[..k][j] == log[j];
  }

  /** Five failures close every code minted before them, until a new one is minted. */
  lemma FiveFailuresLockOut(rows: Rows, log: seq<Event>, now: nat, id: nat)
    requires Inv(rows, log, now) && id in rows && FailuresSince(log, id, rows[id].email) >= 5
    ensures !Active(rows[id], now)
  {
    assert Tracked(id, rows[id], log, now);
  }

  // ---- The handlers --------------------------------------------------------------------------------------------

  datatype Verification = LoggedIn | InvalidCode | TooManyAttempts

  /** Both `Sent` and `Ignored` answer ok. */
  datatype LoginAnswer = Sent | Ignored | TooManyRequests

  class AuthCodes {
    const ownerEmail: Option<string>
    var rows: Rows
    var users: set<string>
    ghost var log: seq<Event>
    ghost var clock: nat

    ghost predicate Valid()
      reads this
    {
      && Inv(rows, log, clock)
      && (ownerEmail.Some? && users == {} ==> forall id :: id in rows ==> rows[id].email == ownerEmail.value)
    }

    constructor (ownerEmail: Option<string>)
      ensures Valid() && rows == map[] && users == {} && log == [] && clock == 0
    {
      this.ownerEmail := ownerEmail;
      rows, users, log, clock := map[], {}, [], 0;
      new;
      assert forall email :: ActiveIds(map[], email, 0) == {};
    }

    /**
     * POST /login. Before there is any user only the configured owner gets a code, and nobody else is told so.
     * The new row's id is a new one.
     */
    method Login(email: string, hash: string, now: nat, id: nat) returns (answer: LoginAnswer)
      requires Valid() && clock <= now && id == |log|
      modifies this`rows, this`log, this`clock
      ensures Valid() && clock == now
      ensures answer == Ignored <==> ownerEmail.Some? && users == {} && email != ownerEmail.value
      ensures answer == Sent <==> answer != Ignored && |LiveIds(old(log), email, now)| < 3
      ensures rows == if answer == Sent then old(rows)[id := Code(email, hash, now + CodeTtl, false, 0)] else old(rows)
      ensures log == if answer == Sent then old(log) + [Minted(email, hash, now)] else old(log)
    {
      TimeKeepsInv(rows, rows, log, clock, now);
      clock := now;
      if ownerEmail.Some? && |users| == 0 && email != ownerEmail.value { return Ignored; }
      ActiveIsLive(rows, log, now, email);
      if |ActiveIds(rows, email, now)| >= CodeMaxPerWindow { return TooManyRequests; }
      MintKeepsInv(rows, log, now, email, hash);
      rows := rows[id := Code(email, hash, now + CodeTtl, false, 0)];
      log := log + [Minted(email, hash, now)];
      answer := Sent;
    }

    /** POST /verify, up to the session it opens; the first login with an email makes its user. */
    method Verify(email: string, hash: string, now: nat) returns (r: Verification)
      requires Valid() && clock <= now
      modifies this
      ensures Valid() && clock == now
      ensures r == LoggedIn <==> exists id: nat :: Live(old(log), id, email, now) && old(log)[id].hash == hash
      ensures r == TooManyAttempts <==>
              r != LoggedIn && exists id: nat :: Live(old(log), id, email, now) && FifthFailure(old(log), id, email)
      ensures rows == if r == LoggedIn then Redeem(old(rows), email, hash, now) else AfterFailure(old(rows), email, now)
      ensures log == old(log) + [if r == LoggedIn then Redeemed(email, hash) else Failed(email, r == TooManyAttempts)]
      ensures users == old(users) + if r == LoggedIn then {email} else {}
      ensures ownerEmail.Some? && old(users) == {} && r == LoggedIn ==> email == ownerEmail.value
      ensures r != InvalidCode ==> forall id :: id in rows ==> !Redeemable(rows[id], email, hash, now)
      ensures r == TooManyAttempts ==> ActiveIds(rows, email, now) == {}
    {
      hide Inv;
      TimeKeepsInv(rows, rows, log, clock, now);
      clock := now;
      RedeemableIsLive(rows, log, now, email, hash);
      if exists id :: id in rows && Redeemable(rows[id], email, hash, now) {
        RedeemKeepsInv(rows, log, now, email, hash);
        rows := Redeem(rows, email, hash, now);
        log := log + [Redeemed(email, hash)];
        users := users + {email};
        return LoggedIn;
      }
      LimitReachedIff(rows, log, now, email);
      FailKeepsInv(rows, log, now, email);
      log := log + [Failed(email, LocksOut(rows, email, now))];
      rows := CountFailure(rows, email, now);
      if LimitReached(rows, email, now) {
        rows := LockOut(rows, email);
        return TooManyAttempts;
      }
      r := InvalidCode;
    }

    /** Rows an hour past their expiry are deleted. */
    method PruneExpired(now: nat)
      requires Valid() && clock <= now
      modifies this`rows, this`clock
      ensures Valid() && clock == now
      ensures rows == map id | id in old(rows) && !(old(rows)[id].expires + 3600 < now) :: old(rows)[id]
      ensures forall email :: ActiveIds(rows, email, now) == ActiveIds(old(rows), email, now)
    {
      var kept := map id | id in rows && !(rows[id].expires + 3600 < now) :: rows[id];
      TimeKeepsInv(rows, kept, log, clock, now);
      rows, clock := kept, now;
    }
  }
}
