/**
 * Concurrent-stream slots, shared by the order streams and the dashboard streams, and the life of a stream:
 * whatever ends it, its slot is given back once.
 */
module Streams {
  /** api_key_id for an order stream, `dashboard:<id>` for a dashboard's. */
  datatype SlotKey = ApiKey(id: nat) | Dashboard(id: nat)

  datatype Kind = OrderStream | DashboardStream

  /**
   * A request that took a slot. `wired`: its close handler is registered. `closed`: the flag of closeStream.
   * `timers`: its intervals (and, for a dashboard, its subscription) are running.
   */
  datatype Stream = Stream(kind: Kind, key: SlotKey, wired: bool, closed: bool, timers: bool)

  datatype Slot = Acquired | ServerStreamLimit | KeyStreamLimit

  /** What a handler's write does: throws, sends a terminal state, or sends something else. */
  datatype Write = Throws | Terminal | Sent

  // ---- Counting ----------------------------------------------------------------------------------------------

  function CountOf(m: map<SlotKey, nat>, key: SlotKey): nat { if key in m then m[key] else 0 }

  /** Slots held under a key. */
  function Held(streams: seq<Stream>, key: SlotKey): nat {
    if streams == [] then 0
    else
      var last := streams[|streams| - 1];
      Held(streams[..|streams| - 1], key) + if last.key == key && !last.closed then 1 else 0
  }

  /** Slots held in all. */
  function AllHeld(streams: seq<Stream>): nat {
    if streams == [] then 0
    else AllHeld(streams[..|streams| - 1]) + if !streams[|streams| - 1].closed then 1 else 0
  }

  ghost function Sum(m: map<SlotKey, nat>): nat
    decreases m
  {
    if m == map[] then 0
    else
      var key :| key in m;
      m[key] + Sum(m - {key})
  }

  lemma {:induction false} SumSplits(m: map<SlotKey, nat>, key: SlotKey)
    requires key in m
    ensures Sum(m) == m[key] + Sum(m - {key})
    decreases m
  {
    var k :| k in m && Sum(m) == m[k] + Sum(m - {k});
    if k != key {
      SumSplits(m - {k}, key);
      SumSplits(m - {key}, k);
      assert m - {k} - {key} == m - {key} - {k};
    }
  }

  /** No zero entries, and each key counts its open streams. */
  ghost predicate Counts(m: map<SlotKey, nat>, streams: seq<Stream>) {
    (forall key :: key in m ==> m[key] > 0) && (forall key :: CountOf(m, key) == Held(streams, key))
  }

  function Lowered(m: map<SlotKey, nat>, key: SlotKey): map<SlotKey, nat> {
    if CountOf(m, key) <= 1 then m - {key} else m[key := m[key] - 1]
  }

  lemma LoweredSum(m: map<SlotKey, nat>, key: SlotKey)
    requires key in m && m[key] > 0
    ensures Sum(Lowered(m, key)) == Sum(m) - 1
  {
    SumSplits(m, key);
    if m[key] > 1 {
      SumSplits(Lowered(m, key), key);
      assert Lowered(m, key) - {key} == m - {key};
    }
  }

  /** Per-key counts that match the streams add up to the streams. */
  lemma {:induction false} SumIsAllHeld(m: map<SlotKey, nat>, streams: seq<Stream>)
    requires Counts(m, streams)
    ensures Sum(m) == AllHeld(streams)
  {
    if streams == [] {
      forall key ensures key !in m {
        assert CountOf(m, key) == Held([], key) == 0;
      }
      assert m == map[];
    } else {
      var last, front := streams[|streams| - 1], streams[..|streams| - 1];
      if last.closed {
        assert forall key :: Held(streams, key) == Held(front, key);
        SumIsAllHeld(m, front);
      } else {
        assert CountOf(m, last.key) == Held(streams, last.key);
        forall key ensures CountOf(Lowered(m, last.key), key) == Held(front, key) {
          assert CountOf(m, key) == Held(streams, key);
        }
        LoweredSum(m, last.key);
        SumIsAllHeld(Lowered(m, last.key), front);
      }
    }
  }

  /** A request that takes a slot under its key adds one to that key's count. */
  lemma OpeningOne(m: map<SlotKey, nat>, streams: seq<Stream>, s: Stream)
    requires Counts(m, streams) && !s.closed
    ensures Counts(m[s.key := CountOf(m, s.key) + 1], streams + [s])
    ensures AllHeld(streams + [s]) == AllHeld(streams) + 1
  {
    var m', streams' := m[s.key := CountOf(m, s.key) + 1], streams + [s];
    assert streams'[..|streams|] == streams;
    forall key ensures CountOf(m', key) == Held(streams', key) {
      assert CountOf(m, key) == Held(streams, key);
    }
  }

  lemma {:induction false} ClosingOne(streams: seq<Stream>, i: nat, s: Stream, key: SlotKey)
    requires i < |streams| && !streams[i].closed && s.closed && s.key == streams[i].key
    ensures Held(streams[i := s], key) == Held(streams, key) - if key == s.key then 1 else 0
    ensures AllHeld(streams[i := s]) == AllHeld(streams) - 1
  {
    var n := |streams| - 1;
    if i < n {
      ClosingOne(streams[..n], i, s, key);
      assert streams[i := s][..n] == streams[..n][i := s];
    } else {
      assert streams[i := s][..n] == streams[..n];
    }
  }

  lemma {:induction false} TouchingOne(streams: seq<Stream>, i: nat, s: Stream, key: SlotKey)
    requires i < |streams| && s.closed == streams[i].closed && s.key == streams[i].key
    ensures Held(streams[i := s], key) == Held(streams, key)
    ensures AllHeld(streams[i := s]) == AllHeld(streams)
  {
    var n := |streams| - 1;
    if i < n {
      TouchingOne(streams[..n], i, s, key);
      assert streams[i := s][..n] == streams[..n][i := s];
    } else {
      assert streams[i := s][..n] == streams[..n];
    }
  }

  lemma {:induction false} AllClosedHoldNothing(streams: seq<Stream>)
    requires forall i :: 0 <= i < |streams| ==> streams[i].closed
    ensures AllHeld(streams) == 0
  {
    if streams != [] { AllClosedHoldNothing(streams[..|streams| - 1]); }
  }

  // ---- What a stream keeps -------------------------------------------------------------------------------------

  /** An order stream is wired from the start and stops its intervals when it closes; only a wired stream runs any. */
  predicate WellKept(s: Stream) {
    (s.kind.OrderStream? ==> s.wired && (s.closed ==> !s.timers)) && (s.closed || s.timers ==> s.wired)
  }

  /** Every closed stream gave its slot back once, no open one did. */
  predicate ReleasedOnce(streams: seq<Stream>, releases: seq<nat>) {
    && |releases| == |streams|
    && forall i :: 0 <= i < |streams| ==>
         WellKept(streams[i]) && releases[i] == if streams[i].closed then 1 else 0
  }

  predicate WithinCap(m: map<SlotKey, nat>, cap: nat) { forall key :: key in m ==> m[key] <= cap }

  lemma OneMoreReleasable(streams: seq<Stream>, releases: seq<nat>, s: Stream)
    requires ReleasedOnce(streams, releases) && WellKept(s) && !s.closed
    ensures ReleasedOnce(streams + [s], releases + [0])
  {}

  /** The counters agree with the streams and stay within their caps. */
  ghost predicate SlotsOk(m: map<SlotKey, nat>, total: nat, streams: seq<Stream>, releases: seq<nat>, maxPerKey: nat,
                          maxTotal: nat) {
    && Counts(m, streams) && total == AllHeld(streams)
    && total <= maxTotal && WithinCap(m, maxPerKey)
    && ReleasedOnce(streams, releases)
  }

  lemma AcquireKeeps(m: map<SlotKey, nat>, total: nat, streams: seq<Stream>, releases: seq<nat>, maxPerKey: nat,
                     maxTotal: nat, s: Stream)
    requires SlotsOk(m, total, streams, releases, maxPerKey, maxTotal) && !s.closed && WellKept(s)
    requires total < maxTotal && CountOf(m, s.key) < maxPerKey
    ensures SlotsOk(m[s.key := CountOf(m, s.key) + 1], total + 1, streams + [s], releases + [0], maxPerKey, maxTotal)
  {
    OpeningOne(m, streams, s);
    OneMoreReleasable(streams, releases, s);
  }

  // ---- What happens to an open stream ----------------------------------------------------------------------------

  /** An order stream's tick, a keepalive, a dashboard's bus event, and the request's close event. */
  datatype Event = TickFires(rowGone: bool, changed: bool, write: Write)
                 | KeepaliveFires(write: Write)
                 | BusFires(write: Write)
                 | ClientCloses

  /** The event reaches closeStream: an interval or subscription has to run, and the close event to be listened for. */
  predicate Ends(s: Stream, e: Event) {
    match e
    case TickFires(rowGone, changed, write) =>
      s.kind.OrderStream? && s.timers && (rowGone || (changed && write != Sent))
    case KeepaliveFires(write) => s.timers && write == Throws
    case BusFires(write) => s.kind.DashboardStream? && s.timers && write == Throws
    case ClientCloses => s.wired
  }

  function Closed(s: Stream): Stream { if s.closed then s else s.(closed := true, timers := false) }

  function OnEvent(s: Stream, e: Event): Stream { if Ends(s, e) then Closed(s) else s }

  function After(s: Stream, events: seq<Event>): Stream {
    if events == [] then s else OnEvent(After(s, events[..|events| - 1]), events[|events| - 1])
  }

  /** How often the events release the stream's slot. */
  function ReleasesBy(s: Stream, events: seq<Event>): nat {
    if events == [] then 0
    else
      var before := After(s, events[..|events| - 1]);
      ReleasesBy(s, events[..|events| - 1]) + ReleasedBy(before, events[|events| - 1])
  }

  /** Over every sequence of events an open stream's slot is released at the first one that ends it, and only then. */
  lemma {:induction false} ReleasedAtFirstEnd(s: Stream, events: seq<Event>)
    requires !s.closed
    ensures var ended := exists i :: 0 <= i < |events| && Ends(s, events[i]);
            && ReleasesBy(s, events) == (if ended then 1 else 0)
            && After(s, events) == (if ended then Closed(s) else s)
  {
    if events != [] {
      var front := events[..|events| - 1];
      ReleasedAtFirstEnd(s, front);
      if i :| 0 <= i < |events| && Ends(s, events[i]) {
        assert i < |front| ==> front[i] == events[i];
      }
      if i :| 0 <= i < |front| && Ends(s, front[i]) { assert Ends(s, events[i]); }
    }
  }

  /** A slot whose stream was never wired stays taken for good, whatever happens. */
  lemma LostSlotStays(s: Stream, events: seq<Event>)
    requires !s.closed && WellKept(s) && !s.wired
    ensures After(s, events) == s && ReleasesBy(s, events) == 0
  {
    ReleasedAtFirstEnd(s, events);
  }

  /** A wired stream's slot is given back, once, by the client's close at the latest. */
  lemma WiredSlotReturns(s: Stream, events: seq<Event>)
    requires !s.closed && s.wired && ClientCloses in events
    ensures After(s, events).closed && ReleasesBy(s, events) == 1
  {
    ReleasedAtFirstEnd(s, events);
    var i :| 0 <= i < |events| && events[i] == ClientCloses;
    assert Ends(s, events[i]);
  }

  /** The events of one stream among those of all. */
  function EventsOf(events: seq<(nat, Event)>, i: nat): seq<Event> {
    if events == [] then []
    else EventsOf(events[..|events| - 1], i) + if events[|events| - 1].0 == i then [events[|events| - 1].1] else []
  }

  lemma EventsOfSnoc(events: seq<(nat, Event)>, n: nat, i: nat)
    requires n < |events|
    ensures EventsOf(events[..n + 1], i) == EventsOf(events[..n], i) + if events[n].0 == i then [events[n].1] else []
  {
    assert events[..n + 1][..n] == events[..n];
  }

  lemma AfterSnoc(s: Stream, events: seq<Event>, e: Event)
    ensures After(s, events + [e]) == OnEvent(After(s, events), e)
    ensures ReleasesBy(s, events + [e]) == ReleasesBy(s, events) + ReleasedBy(After(s, events), e)
  {
    assert (events + [e])[..|events|] == events;
  }

  function ReleasedBy(s: Stream, e: Event): nat { if !s.closed && Ends(s, e) then 1 else 0 }

  /** Each stream is as its own events leave it, and its slot was released as often as they release it. */
  predicate Played(was: seq<Stream>, before: seq<nat>, streams: seq<Stream>, releases: seq<nat>,
                   events: seq<(nat, Event)>) {
    && |was| == |before| == |streams| == |releases|
    && forall i :: 0 <= i < |was| ==>
         && streams[i] == After(was[i], EventsOf(events, i))
         && releases[i] == before[i] + ReleasesBy(was[i], EventsOf(events, i))
  }

  lemma PlayedSnoc(was: seq<Stream>, before: seq<nat>, streams: seq<Stream>, releases: seq<nat>,
                   events: seq<(nat, Event)>, n: nat)
    requires n < |events| && events[n].0 < |was| && Played(was, before, streams, releases, events[..n])
    ensures var (k, e) := events[n];
            Played(was, before, streams[k := OnEvent(streams[k], e)],
              releases[k := releases[k] + ReleasedBy(streams[k], e)],
                   events[..n + 1])
  {
    var (k, e) := events[n];
    forall i | 0 <= i < |was|
      ensures EventsOf(events[..n + 1], i) ==
              if k == i then EventsOf(events[..n], i) + [e] else EventsOf(events[..n], i)
    {
      EventsOfSnoc(events, n, i);
    }
    AfterSnoc(was[k], EventsOf(events[..n], k), e);
  }

  class StreamSlots {
    const maxPerKey: nat
    const maxTotal: nat
    var openByKey: map<SlotKey, nat>
    var total: nat
    /** The requests that took a slot, each with its own flags. */
    var streams: seq<Stream>
    /** How many times each of them called releaseStreamSlot. */
    ghost var releases: seq<nat>

    ghost predicate Valid()
      reads this
    {
      SlotsOk(openByKey, total, streams, releases, maxPerKey, maxTotal)
    }

    constructor (maxPerKey: nat, maxTotal: nat)
      ensures Valid() && streams == []
    {
      this.maxPerKey, this.maxTotal := maxPerKey, maxTotal;
      openByKey, total, streams, releases := map[], 0, [], [];
    }

    /** The total is the sum of the per-key counts. */
    lemma TotalIsSum()
      requires Valid()
      ensures total == Sum(openByKey)
    {
      SumIsAllHeld(openByKey, streams);
    }

    /** With every stream closed the counters are back at nothing. */
    lemma AllClosedAllFree()
      requires Valid() && forall i :: 0 <= i < |streams| ==> streams[i].closed
      ensures total == 0 && openByKey == map[]
    {
      AllClosedHoldNothing(streams);
      SumIsAllHeld(openByKey, streams);
      forall key ensures key !in openByKey {
        if key in openByKey { SumSplits(openByKey, key); }
      }
    }

    /** tryAcquireStreamSlot, and the request that now holds the slot. */
    method TryAcquire(kind: Kind, key: SlotKey) returns (slot: Slot)
      requires Valid()
      modifies this
      ensures Valid()
      ensures slot == if old(total) >= maxTotal then ServerStreamLimit
                      else if CountOf(old(openByKey), key) >= maxPerKey then KeyStreamLimit else Acquired
      ensures streams == if slot == Acquired then old(streams) + [Stream(kind, key, kind.OrderStream?, false, false)]
              else old(streams)
    {
      if total >= maxTotal { return ServerStreamLimit; }
      var current := CountOf(openByKey, key);
      if current >= maxPerKey { return KeyStreamLimit; }
      var s := Stream(kind, key, kind.OrderStream?, false, false);
      hide SlotsOk;
      AcquireKeeps(openByKey, total, streams, releases, maxPerKey, maxTotal, s);
      openByKey, total, streams, releases := openByKey[key := current + 1], total + 1, streams + [s], releases + [0];
      slot := Acquired;
    }

    /** releaseStreamSlot, which trusts its caller to hold the slot. */
    method Release(key: SlotKey)
      modifies this`openByKey, this`total
      ensures openByKey == Lowered(old(openByKey), key)
      ensures total == if old(total) > 0 then old(total) - 1 else 0
    {
      var current := CountOf(openByKey, key);
      openByKey := if current <= 1 then openByKey - {key} else openByKey[key := current - 1];
      if total > 0 { total := total - 1; }
    }

    lemma HoldsItsSlot(i: nat)
      requires Valid() && i < |streams| && !streams[i].closed
      ensures streams[i].key in openByKey && openByKey[streams[i].key] > 0 && total > 0
    {
      ClosingOne(streams, i, streams[i].(closed := true), streams[i].key);
      assert CountOf(openByKey, streams[i].key) == Held(streams, streams[i].key);
    }

    /** closeStream: however often it is called, the slot is released the first time only. */
    method CloseStream(i: nat)
      requires Valid() && i < |streams| && streams[i].wired
      modifies this
      ensures Valid()
      ensures streams == old(streams)[i := Closed(old(streams)[i])]
      ensures releases == old(releases)[i := if old(streams)[i].closed then old(releases)[i] else old(releases)[i] + 1]
    {
      if streams[i].closed { return; }
      HoldsItsSlot(i);
      var s := streams[i].(closed := true, timers := false);
      ghost var before, was := openByKey, streams;
      Release(s.key);
      streams, releases := streams[i := s], releases[i := releases[i] + 1];
      forall k ensures CountOf(openByKey, k) == Held(streams, k) {
        ClosingOne(was, i, s, k);
        assert CountOf(before, k) == Held(was, k);
      }
      ClosingOne(was, i, s, s.key);
    }

    method SetFlags(i: nat, s: Stream)
      requires Valid() && i < |streams| && s.closed == streams[i].closed && s.key == streams[i].key && WellKept(s)
      modifies this`streams
      ensures Valid() && streams == old(streams)[i := s]
    {
      ghost var was := streams;
      streams := streams[i := s];
      forall k ensures CountOf(openByKey, k) == Held(streams, k) {
        TouchingOne(was, i, s, k);
      }
      TouchingOne(was, i, s, s.key);
    }

    /** GET /orders/:id/stream, up to the point where its intervals run. */
    method OpenOrderStream(key: SlotKey, header: Write, first: Write) returns (slot: Slot)
      requires Valid()
      modifies this
      ensures Valid()
      ensures slot == Acquired ==>
                var over := header == Throws || first != Sent;
                streams == old(streams) + [Stream(OrderStream, key, true, over, !over)]
      ensures slot != Acquired ==> streams == old(streams)
    {
      hide SlotsOk;
      slot := TryAcquire(OrderStream, key);
      if slot != Acquired { return; }
      var i := |streams| - 1;
      if header == Throws {
        CloseStream(i);
        return;
      }
      if first != Sent {
        CloseStream(i);
        return;
      }
      SetFlags(i, streams[i].(timers := true));
    }

    /** The order stream's tick: what the order's row says, if it is there and has changed. */
    method Tick(i: nat, rowGone: bool, changed: bool, write: Write)
      requires Valid() && i < |streams|
      modifies this
      ensures Handled(i, TickFires(rowGone, changed, write), old(streams), old(releases))
    {
      if !streams[i].kind.OrderStream? || !streams[i].timers || streams[i].closed { return; }
      if rowGone {
        CloseStream(i);
        return;
      }
      if changed && write != Sent { CloseStream(i); }
    }

    /** The keepalive of either kind; only an order stream's looks at the flag first. */
    method Keepalive(i: nat, write: Write)
      requires Valid() && i < |streams|
      modifies this
      ensures Handled(i, KeepaliveFires(write), old(streams), old(releases))
    {
      if !streams[i].timers || (streams[i].kind.OrderStream? && streams[i].closed) { return; }
      if write == Throws { CloseStream(i); }
    }

    /** The event bus calls a dashboard stream's subscriber. */
    method BusEvent(i: nat, write: Write)
      requires Valid() && i < |streams|
      modifies this
      ensures Handled(i, BusFires(write), old(streams), old(releases))
    {
      if !streams[i].kind.DashboardStream? || !streams[i].timers || streams[i].closed { return; }
      if write == Throws { CloseStream(i); }
    }

    /** The request's close event; nobody listens for it before the handler is wired. */
    method ClientClose(i: nat)
      requires Valid() && i < |streams|
      modifies this
      ensures Handled(i, ClientCloses, old(streams), old(releases))
    {
      if streams[i].wired { CloseStream(i); }
    }

    /** The event has its effect on its stream and none on the others. */
    ghost predicate Handled(i: nat, e: Event, was: seq<Stream>, before: seq<nat>)
      requires i < |was| && |before| == |was|
      reads this
    {
      && Valid() && streams == was[i := OnEvent(was[i], e)]
      && releases == before[i := before[i] + ReleasedBy(was[i], e)]
    }

    method Handle(i: nat, e: Event)
      requires Valid() && i < |streams|
      modifies this
      ensures Handled(i, e, old(streams), old(releases))
    {
      match e {
        case TickFires(rowGone, changed, write) => Tick(i, rowGone, changed, write);
        case KeepaliveFires(write) => Keepalive(i, write);
        case BusFires(write) => BusEvent(i, write);
        case ClientCloses => ClientClose(i);
      }
    }

    /** Any events of any streams in any order. */
    method HandleAll(events: seq<(nat, Event)>)
      requires Valid() && forall n :: 0 <= n < |events| ==> events[n].0 < |streams|
      modifies this
      ensures Valid() && Played(old(streams), old(releases), streams, releases, events)
    {
      assert Played(streams, releases, streams, releases, events[..0]);
      hide SlotsOk, Played, OnEvent, ReleasedBy;
      for n := 0 to |events|
        invariant Valid() && |streams| == |old(streams)|
        invariant Played(old(streams), old(releases), streams, releases, events[..n])
      {
        PlayedSnoc(old(streams), old(releases), streams, releases, events, n);
        Handle(events[n].0, events[n].1);
      }
      assert events[..|events|] == events;
    }

    /**
     * GET /dashboard/stream. Between taking the slot and listening for the close event it reads the dashboard's
     * keys; if that read throws, the handler ends there and the slot stays taken.
     */
    method OpenDashboardStream(key: SlotKey, readThrows: bool, header: Write, ready: Write) returns (slot: Slot)
      requires Valid()
      modifies this
      ensures Valid()
      ensures slot == Acquired ==>
                streams == old(streams) + [
                  if readThrows then Stream(DashboardStream, key, false, false, false)
                  else Stream(DashboardStream, key, true, header == Throws || ready == Throws, header != Throws)]
      ensures slot != Acquired ==> streams == old(streams)
    {
      hide SlotsOk;
      slot := TryAcquire(DashboardStream, key);
      if slot != Acquired || readThrows { return; }
      ghost var was := streams[..|streams| - 1];
      var i := |streams| - 1;
      SetFlags(i, streams[i].(wired := true));
      assert streams == was + [Stream(DashboardStream, key, true, false, false)];
      if header == Throws || ready == Throws {
        CloseStream(i);
        assert streams == was + [Stream(DashboardStream, key, true, true, false)];
        if header == Throws { return; }
      }
      SetFlags(i, streams[i].(timers := true));
      assert streams == was + [Stream(DashboardStream, key, true, ready == Throws, true)];
    }
  }
}
