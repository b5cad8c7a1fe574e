/**
 * The two circuit breakers, against specifications that look at the whole history of recorded events.
 * Times are milliseconds on a clock that never runs backwards.
 */
module Breakers {
  import opened Common

  datatype Event = Failure(at: nat) | Success(at: nat)

  type History = seq<Event>

  predicate Ordered(h: History) { forall i, j :: 0 <= i < j < |h| ==> h[i].at <= h[j].at }

  predicate UpTo(h: History, clock: nat) { Ordered(h) && forall i :: 0 <= i < |h| ==> h[i].at <= clock }

  function Front(h: History): (f: History)
    requires h != []
    ensures |f| == |h| - 1
  {
    h[..|h| - 1]
  }

  function Last(h: History): Event
    requires h != []
  {
    h[|h| - 1]
  }

  predicate LastFailures(h: History, n: nat) {
    n <= |h| && forall i :: |h| - n <= i < |h| ==> h[i].Failure?
  }

  // ---- The gate ----------------------------------------------------------------------------------------------

  /** Some trip is less than a cooldown old. */
  ghost predicate Open(trips: History -> bool, cooldown: nat, h: History, now: nat) {
    exists k :: 0 < k <= |h| && trips(h[..k]) && now < h[k - 1].at + cooldown
  }

  /** From the clock's time on, comparing with `openedUntil` is what the history says. */
  ghost predicate Gate(trips: History -> bool, cooldown: nat, openedUntil: nat, h: History, clock: nat) {
    forall now: nat :: clock <= now ==> (now < openedUntil <==> Open(trips, cooldown, h, now))
  }

  lemma GateStep(trips: History -> bool, cooldown: nat, openedUntil: nat, h: History, clock: nat, e: Event,
                 openedUntil': nat)
    requires Gate(trips, cooldown, openedUntil, h, clock) && UpTo(h, e.at) && clock <= e.at
    requires openedUntil' == if trips(h + [e]) then e.at + cooldown
                             else if e.Success? && e.at >= openedUntil then 0 else openedUntil
    ensures Gate(trips, cooldown, openedUntil', h + [e], e.at)
  {
    var h' := h + [e];
    forall now: nat | e.at <= now ensures now < openedUntil' <==> Open(trips, cooldown, h', now) {
      OpenStep(trips, cooldown, h, e, now);
      assert now < openedUntil <==> Open(trips, cooldown, h, now);
    }
  }

  lemma OpenStep(trips: History -> bool, cooldown: nat, h: History, e: Event, now: nat)
    ensures Open(trips, cooldown, h + [e], now) <==>
            Open(trips, cooldown, h, now) || (trips(h + [e]) && now < e.at + cooldown)
  {
    var h' := h + [e];
    assert forall k :: 0 < k <= |h| ==> h'[..k] == h[..k] && h'[k - 1] == h[k - 1];
    assert h'[..|h'|] == h';
    if Open(trips, cooldown, h, now) {
      var k :| 0 < k <= |h| && trips(h[..k]) && now < h[k - 1].at + cooldown;
      assert trips(h'[..k]);
    }
    if Open(trips, cooldown, h', now) {
      var k :| 0 < k <= |h'| && trips(h'[..k]) && now < h'[k - 1].at + cooldown;
      assert k <= |h| ==> trips(h[..k]);
    }
  }

  /** Nothing recorded later closes a gate that is open. */
  lemma {:induction false} OpenStays(trips: History -> bool, cooldown: nat, h: History, more: History, now: nat)
    requires Open(trips, cooldown, h, now)
    ensures Open(trips, cooldown, h + more, now)
  {
    if more == [] {
      assert h + more == h;
    } else {
      OpenStays(trips, cooldown, h, Front(more), now);
      OpenStep(trips, cooldown, h + Front(more), Last(more), now);
      assert h + Front(more) + [Last(more)] == h + more;
    }
  }

  // ---- Webhooks: five failures in a minute -----------------------------------------------------------------------

  const WebhookThreshold: nat := 5
  const WebhookWindow: nat := 60000
  const WebhookCooldown: nat := 300000

  /** The last five events are failures within the window, and none of the first four of them tripped the breaker. */
  predicate WebhookTrips(h: History)
    decreases |h|
  {
    LastFailures(h, 5)
    && Last(h).at - h[|h| - 5].at < WebhookWindow
    && forall k :: |h| - 5 < k < |h| ==> !WebhookTrips(h[..k])
  }

  /** Failures since the last success or trip. */
  function WebhookRun(h: History): (n: nat)
    ensures n <= |h|
  {
    if h == [] || Last(h).Success? || WebhookTrips(h) then 0 else 1 + WebhookRun(Front(h))
  }

  lemma {:induction false} WebhookRunAtLeast(h: History, m: nat)
    ensures WebhookRun(h) >= m <==>
            LastFailures(h, m) && forall k :: |h| - m < k <= |h| ==> !WebhookTrips(h[..k])
    decreases m
  {
    if 0 < m <= |h| {
      WebhookRunAtLeast(Front(h), m - 1);
      assert h[..|h|] == h;
      assert forall k :: 0 <= k < |h| ==> Front(h)[..k] == h[..k];
    }
  }

  lemma WebhookTripsIff(h: History, now: nat)
    ensures WebhookTrips(h + [Failure(now)]) <==> WebhookRun(h) >= 4 && now - h[|h| - 4].at < WebhookWindow
  {
    hide WebhookRun;
    var h' := h + [Failure(now)];
    WebhookRunAtLeast(h, 4);
    assert forall k :: 0 <= k <= |h| ==> h'[..k] == h[..k];
    assert LastFailures(h', 5) <==> LastFailures(h, 4) by {
      assert forall i :: 0 <= i < |h| ==> h'[i] == h[i];
    }
  }

  /** filter((ts) => now - ts < CB_WINDOW_MS) */
  function Recent(times: seq<nat>, now: nat): seq<nat> {
    if times == [] then []
    else (if now - times[0] < WebhookWindow then [times[0]] else []) + Recent(times[1..], now)
  }

  predicate Sorted(times: seq<nat>) { forall i, j :: 0 <= i < j < |times| ==> times[i] <= times[j] }

  /** On times in order the filter drops a prefix. */
  lemma {:induction false} RecentIsSuffix(times: seq<nat>, now: nat) returns (k: nat)
    requires Sorted(times)
    ensures k <= |times| && Recent(times, now) == times[k..]
    ensures k > 0 ==> now - times[k - 1] >= WebhookWindow
    ensures k < |times| ==> now - times[k] < WebhookWindow
  {
    if times == [] {
      k := 0;
    } else {
      var rest := times[1..];
      var k' := RecentIsSuffix(rest, now);
      if now - times[0] < WebhookWindow {
        k := 0;
        assert k' == 0 && Recent(times, now) == [times[0]] + rest;
      } else {
        k := k' + 1;
      }
    }
  }

  function Times(h: History, n: nat): (ts: seq<nat>)
    requires n <= |h|
    ensures |ts| == n
    ensures forall i :: 0 <= i < n ==> ts[i] == h[|h| - n + i].at
  {
    seq<nat>(n, i requires 0 <= i < n => h[|h| - n + i].at)
  }

  datatype Circuit = Circuit(failures: seq<nat>, openedUntil: nat)

  /** The kept times are the last ones of the run; what is missing is out of the window. */
  predicate Kept(times: seq<nat>, h: History, run: nat, clock: nat)
    requires run <= |h|
  {
    && |times| <= run && |times| <= 4
    && times == Times(h, |times|)
    && (|times| < run ==> clock - h[|h| - 1 - |times|].at >= WebhookWindow)
  }

  ghost predicate Tracks(c: Circuit, h: History, clock: nat) {
    && UpTo(h, clock) && Kept(c.failures, h, WebhookRun(h), clock)
    && Gate(WebhookTrips, WebhookCooldown, c.openedUntil, h, clock)
  }

  lemma TimesGrow(h: History, n: nat, k: nat, now: nat)
    requires k <= n <= |h|
    ensures Times(h, n)[k..] + [now] == Times(h + [Failure(now)], n - k + 1)
  {}

  /** What filtering leaves, with the new failure, is long enough to trip exactly when the history trips. */
  lemma KeptTrips(times: seq<nat>, h: History, now: nat) returns (k: nat)
    requires UpTo(h, now) && Kept(times, h, WebhookRun(h), now)
    ensures k <= |times| && Recent(times, now) == times[k..]
    ensures |Recent(times, now)| >= 4 <==> WebhookTrips(h + [Failure(now)])
    ensures |times| - k < WebhookRun(h) ==> now - h[|h| - 1 - (|times| - k)].at >= WebhookWindow
  {
    hide WebhookTrips, WebhookRun, Recent;
    WebhookTripsIff(h, now);
    k := RecentIsSuffix(times, now);
    var m := |times| - k;
    assert k > 0 ==> h[|h| - 1 - m].at == times[k - 1];
    if m == 4 {
      assert h[|h| - 4].at == times[k];
    } else if WebhookRun(h) >= 4 {
      assert h[|h| - 4].at <= h[|h| - 1 - m].at;
    }
  }

  lemma RunAfterFailure(h: History, now: nat)
    ensures WebhookRun(h + [Failure(now)]) == if WebhookTrips(h + [Failure(now)]) then 0 else WebhookRun(h) + 1
  {
    assert Front(h + [Failure(now)]) == h;
  }

  lemma KeptAfterFailure(times: seq<nat>, h: History, run: nat, now: nat, k: nat)
    requires k <= |times| <= run <= |h| && |times| - k < 4 && times == Times(h, |times|)
    requires |times| - k < run ==> now - h[|h| - 1 - (|times| - k)].at >= WebhookWindow
    ensures Kept(times[k..] + [now], h + [Failure(now)], run + 1, now)
  {
    TimesGrow(h, |times|, k, now);
  }

  lemma FailureTracked(c: Circuit, h: History, now: nat)
    requires Tracks(c, h, now)
    ensures |Recent(c.failures, now)| >= 4 <==> WebhookTrips(h + [Failure(now)])
    ensures Tracks(if WebhookTrips(h + [Failure(now)]) then Circuit([], now + WebhookCooldown)
                   else c.(failures := Recent(c.failures, now) + [now]), h + [Failure(now)], now)
  {
    hide WebhookTrips, WebhookRun, Recent, Gate;
    var k := KeptTrips(c.failures, h, now);
    RunAfterFailure(h, now);
    if !WebhookTrips(h + [Failure(now)]) {
      KeptAfterFailure(c.failures, h, WebhookRun(h), now, k);
    }
    GateStep(WebhookTrips, WebhookCooldown, c.openedUntil, h, now, Failure(now),
             if WebhookTrips(h + [Failure(now)]) then now + WebhookCooldown else c.openedUntil);
  }

  lemma SuccessTracked(c: Circuit, h: History, now: nat)
    requires Tracks(c, h, now)
    ensures Tracks(Circuit([], if now >= c.openedUntil then 0 else c.openedUntil), h + [Success(now)], now)
  {
    GateStep(WebhookTrips, WebhookCooldown, c.openedUntil, h, now, Success(now),
             if now >= c.openedUntil then 0 else c.openedUntil);
  }

  lemma NewCircuitTracks(h: History, clock: nat)
    requires UpTo(h, clock) && forall i :: 0 <= i < |h| ==> h[i].Success?
    ensures Tracks(Circuit([], 0), h, clock)
  {
    forall k | 0 < k <= |h| ensures !WebhookTrips(h[..k]) {
      assert h[..k][k - 1].Success?;
    }
  }

  ghost function Recorded(history: map<string, History>, origin: string): History {
    if origin in history then history[origin] else []
  }

  function CircuitOf(circuits: map<string, Circuit>, origin: string): Circuit {
    if origin in circuits then circuits[origin] else Circuit([], 0)
  }

  /** An origin's circuit tracks its history; an origin without a circuit has not failed. */
  ghost predicate Known(circuits: map<string, Circuit>, origin: string, h: History, clock: nat) {
    if origin in circuits then Tracks(circuits[origin], h, clock)
    else UpTo(h, clock) && forall i :: 0 <= i < |h| ==> h[i].Success?
  }

  ghost predicate AllKnown(circuits: map<string, Circuit>, history: map<string, History>, clock: nat) {
    forall origin :: Known(circuits, origin, Recorded(history, origin), clock)
  }

  lemma KnownTracks(circuits: map<string, Circuit>, origin: string, h: History, clock: nat, now: nat)
    requires Known(circuits, origin, h, clock) && clock <= now
    ensures Tracks(CircuitOf(circuits, origin), h, now) && Known(circuits, origin, h, now)
  {
    if origin !in circuits { NewCircuitTracks(h, now); }
  }

  /** Recording for one origin leaves what is known of the others. */
  lemma KnownAfter(circuits: map<string, Circuit>, history: map<string, History>, clock: nat, origin: string,
                   circuits': map<string, Circuit>, h: History, now: nat)
    requires clock <= now && AllKnown(circuits, history, clock)
    requires circuits' == circuits || (origin in circuits' && circuits' == circuits[origin := circuits'[origin]])
    requires Known(circuits', origin, h, now)
    ensures AllKnown(circuits', history[origin := h], now)
  {
    var history' := history[origin := h];
    forall o ensures Known(circuits', o, Recorded(history', o), now) {
      if o != origin {
        assert Recorded(history', o) == Recorded(history, o);
        KnownTracks(circuits, o, Recorded(history, o), clock, now);
      }
    }
  }

  /** A trip in the history is at most a cooldown ahead of the clock. */
  lemma GateBound(trips: History -> bool, cooldown: nat, openedUntil: nat, h: History, now: nat)
    requires Gate(trips, cooldown, openedUntil, h, now) && UpTo(h, now) && now < openedUntil
    ensures openedUntil <= now + cooldown
  {
    assert Open(trips, cooldown, h, openedUntil - 1);
  }

  lemma FailureKnown(circuits: map<string, Circuit>, history: map<string, History>, clock: nat, origin: string,
                     now: nat, c: Circuit)
    requires AllKnown(circuits, history, clock) && clock <= now
    requires var kept := Recent(CircuitOf(circuits, origin).failures, now) + [now];
             c == if |kept| >= WebhookThreshold then Circuit([], now + WebhookCooldown)
                  else CircuitOf(circuits, origin).(failures := kept)
    ensures |Recent(CircuitOf(circuits, origin).failures, now) + [now]| >= WebhookThreshold
            <==> WebhookTrips(Recorded(history, origin) + [Failure(now)])
    ensures AllKnown(circuits[origin := c], history[origin := Recorded(history, origin) + [Failure(now)]], now)
    ensures now < CircuitOf(circuits, origin).openedUntil ==> CircuitOf(circuits, origin).openedUntil <= c.openedUntil
  {
    var was, h := CircuitOf(circuits, origin), Recorded(history, origin);
    KnownTracks(circuits, origin, h, clock, now);
    FailureTracked(was, h, now);
    if now < was.openedUntil { GateBound(WebhookTrips, WebhookCooldown, was.openedUntil, h, now); }
    KnownAfter(circuits, history, clock, origin, circuits[origin := c], h + [Failure(now)], now);
  }

  lemma SuccessKnown(circuits: map<string, Circuit>, history: map<string, History>, clock: nat, origin: string,
                     now: nat,
                     circuits': map<string, Circuit>)
    requires AllKnown(circuits, history, clock) && clock <= now
    requires var until := CircuitOf(circuits, origin).openedUntil;
             circuits' == if origin !in circuits then circuits
                          else circuits[origin := Circuit([], if now >= until then 0 else until)]
    ensures AllKnown(circuits', history[origin := Recorded(history, origin) + [Success(now)]], now)
  {
    var was, h := CircuitOf(circuits, origin), Recorded(history, origin);
    KnownTracks(circuits, origin, h, clock, now);
    SuccessTracked(was, h, now);
    KnownAfter(circuits, history, clock, origin, circuits', h + [Success(now)], now);
  }

  /** The process-wide map of circuits, one for each origin that has failed. */
  class WebhookCircuits {
    var circuits: map<string, Circuit>
    ghost var history: map<string, History>
    ghost var clock: nat

    ghost predicate Valid()
      reads this
    {
      AllKnown(circuits, history, clock)
    }

    constructor ()
      ensures Valid() && history == map[] && clock == 0
    {
      circuits, history, clock := map[], map[], 0;
    }

    method CircuitIsOpen(origin: string, now: nat) returns (open: bool)
      requires Valid() && clock <= now
      ensures open <==> Open(WebhookTrips, WebhookCooldown, Recorded(history, origin), now)
    {
      KnownTracks(circuits, origin, Recorded(history, origin), clock, now);
      if origin !in circuits { return false; }
      open := now < circuits[origin].openedUntil;
    }

    /** `tripped` is the announcement that the circuit opened. */
    method RecordCircuitFailure(origin: string, now: nat) returns (tripped: bool)
      requires Valid() && clock <= now
      modifies this
      ensures Valid() && clock == now
      ensures history == old(history)[origin := Recorded(old(history), origin) + [Failure(now)]]
      ensures tripped <==> WebhookTrips(Recorded(history, origin))
      ensures origin in circuits && forall o :: o in old(circuits) && now < old(circuits)[o].openedUntil ==>
                                                o in circuits && circuits[o].openedUntil >= old(circuits)[o].openedUntil
    {
      var c := CircuitOf(circuits, origin);
      c := c.(failures := Recent(c.failures, now) + [now]);
      tripped := |c.failures| >= WebhookThreshold;
      if tripped { c := Circuit([], now + WebhookCooldown); }
      FailureKnown(circuits, history, clock, origin, now, c);
      circuits := circuits[origin := c];
      history, clock := history[origin := Recorded(history, origin) + [Failure(now)]], now;
    }

    method RecordCircuitSuccess(origin: string, now: nat)
      requires Valid() && clock <= now
      modifies this
      ensures Valid() && clock == now
      ensures history == old(history)[origin := Recorded(old(history), origin) + [Success(now)]]
      ensures circuits.Keys == old(circuits).Keys
      ensures forall o :: o in circuits && now < old(circuits)[o].openedUntil ==>
              circuits[o].openedUntil == old(circuits)[o].openedUntil
    {
      if origin in circuits {
        var c := circuits[origin].(failures := []);
        if now >= c.openedUntil { c := c.(openedUntil := 0); }
        circuits := circuits[origin := c];
      }
      SuccessKnown(old(circuits), history, clock, origin, now, circuits);
      history, clock := history[origin := Recorded(history, origin) + [Success(now)]], now;
    }
  }

  // ---- VCC: three failures in a row -------------------------------------------------------------------------------

  const VccThreshold: nat := 3
  const VccWindow: nat := 60000
  const VccCooldown: nat := 30000

  /** The last three events are failures, each at most a window after the one before, and the first two did not trip. */
  predicate VccTrips(h: History)
    decreases |h|
  {
    LastFailures(h, 3)
    && h[|h| - 1].at - h[|h| - 2].at <= VccWindow && h[|h| - 2].at - h[|h| - 3].at <= VccWindow
    && !VccTrips(h[..|h| - 1]) && !VccTrips(h[..|h| - 2])
  }

  /** Length of the run of close failures that the history ends with. */
  function VccRun(h: History): nat {
    if h == [] || Last(h).Success? || VccTrips(h) then 0
    else if |h| >= 2 && VccRun(Front(h)) > 0 && Last(h).at - h[|h| - 2].at <= VccWindow then VccRun(Front(h)) + 1
    else 1
  }

  /** A failure trips after two failures in close succession, unless one of them tripped. */
  lemma VccTripsUnfolds(h: History, now: nat)
    ensures VccTrips(h + [Failure(now)]) <==>
            && LastFailures(h, 2) && now - h[|h| - 1].at <= VccWindow && h[|h| - 1].at - h[|h| - 2].at <= VccWindow
            && !VccTrips(h) && !VccTrips(Front(h))
  {
    var h' := h + [Failure(now)];
    assert h'[..|h'| - 1] == h;
    if |h| >= 2 {
      assert h'[..|h'| - 2] == Front(h);
      assert h'[|h| - 1] == h[|h| - 1] && h'[|h| - 2] == h[|h| - 2];
    }
  }

  lemma {:induction false} VccTripsIff(h: History, now: nat)
    ensures VccTrips(h + [Failure(now)]) <==> VccRun(h) >= 2 && now - h[|h| - 1].at <= VccWindow
    ensures VccRun(h) <= 2
    decreases |h|
  {
    hide VccTrips;
    VccTripsUnfolds(h, now);
    if h != [] {
      VccTripsIff(Front(h), Last(h).at);
      if Last(h).Failure? { assert h == Front(h) + [Failure(Last(h).at)]; }
    }
  }

  /** The three fields agree with the history. */
  ghost predicate VccTracks(failures: nat, openedUntil: nat, lastFailureAt: nat, h: History, clock: nat) {
    && UpTo(h, clock)
    && failures == VccRun(h)
    && (failures > 0 ==> lastFailureAt == Last(h).at)
    && Gate(VccTrips, VccCooldown, openedUntil, h, clock)
  }

  /** Counting the failure on, or from one again, reaches the threshold exactly when the history trips. */
  lemma VccFailureTracked(failures: nat, openedUntil: nat, lastFailureAt: nat, h: History, clock: nat, now: nat,
                          failures': nat)
    requires VccTracks(failures, openedUntil, lastFailureAt, h, clock) && clock <= now
    requires failures' == if now - lastFailureAt > VccWindow then 1 else failures + 1
    ensures failures' >= VccThreshold <==> VccTrips(h + [Failure(now)])
    ensures if failures' >= VccThreshold then VccTracks(0, now + VccCooldown, now, h + [Failure(now)], now)
            else VccTracks(failures', openedUntil, now, h + [Failure(now)], now)
    ensures now < openedUntil ==> openedUntil <= now + VccCooldown
  {
    var h' := h + [Failure(now)];
    VccTripsIff(h, now);
    assert Front(h') == h;
    GateStep(VccTrips, VccCooldown, openedUntil, h, clock, Failure(now),
             if VccTrips(h') then now + VccCooldown else openedUntil);
    if now < openedUntil { GateBound(VccTrips, VccCooldown, openedUntil, h, now); }
  }

  class VccCircuit {
    var failures: nat
    var openedUntil: nat
    var lastFailureAt: nat
    ghost var history: History
    ghost var clock: nat

    ghost predicate Valid()
      reads this
    {
      VccTracks(failures, openedUntil, lastFailureAt, history, clock)
    }

    constructor ()
      ensures Valid() && history == [] && clock == 0
    {
      failures, openedUntil, lastFailureAt, history, clock := 0, 0, 0, [], 0;
    }

    /** vccCircuitGuard: false where the code throws. */
    method Guard(now: nat) returns (pass: bool)
      requires Valid() && clock <= now
      ensures pass <==> !Open(VccTrips, VccCooldown, history, now)
    {
      pass := !(now < openedUntil);
    }

    /** `tripped` is the announcement that the circuit opened. */
    method RecordVccFailure(now: nat) returns (tripped: bool)
      requires Valid() && clock <= now
      modifies this
      ensures Valid() && clock == now && history == old(history) + [Failure(now)]
      ensures tripped <==> VccTrips(history)
      ensures now < old(openedUntil) ==> openedUntil >= old(openedUntil)
    {
      ghost var was := failures;
      if now - lastFailureAt > VccWindow {
        failures := 1;
      } else {
        failures := failures + 1;
      }
      VccFailureTracked(was, openedUntil, lastFailureAt, history, clock, now, failures);
      lastFailureAt := now;
      tripped := failures >= VccThreshold;
      if tripped {
        openedUntil := now + VccCooldown;
        failures := 0;
      }
      history, clock := history + [Failure(now)], now;
    }

    method RecordVccSuccess(now: nat)
      requires Valid() && clock <= now
      modifies this
      ensures Valid() && clock == now && history == old(history) + [Success(now)]
      ensures now < old(openedUntil) ==> openedUntil == old(openedUntil)
    {
      GateStep(VccTrips, VccCooldown, openedUntil, history, clock, Success(now),
               if now >= openedUntil then 0 else openedUntil);
      failures := 0;
      if now >= openedUntil {
        openedUntil := 0;
        lastFailureAt := 0;
      }
      history, clock := history + [Success(now)], now;
    }
  }
}
