/**
 * Processes that overlap and do not share the ledger. When a pay call sends a second hash, and three runs from
 * the empty world, one for each way of not sharing, that end with two hashes sent for one order.
 */
module PayTwice {
  import opened Common
  import opened PayOnce

  lemma {:induction false} ExecAppend(w: World, a: seq<Step>, b: seq<Step>)
    ensures Exec(w, a + b) == Exec(Exec(w, a), b)
  {
    if b == [] {
      assert a + b == a;
    } else {
      ExecAppend(w, a, b[..|b| - 1]);
      assert (a + b)[..|a + b| - 1] == a + b[..|b| - 1];
    }
  }

  lemma ExecFour(w: World, a: Step, b: Step, c: Step, d: Step)
    ensures Exec(w, [a, b, c, d]) == Next(Next(Next(Next(w, a), b), c), d)
  {
    hide Next;
    assert [a, b, c, d][..3] == [a, b, c] && [a, b, c][..2] == [a, b] && [a, b][..1] == [a] && [a][..0] == [];
    assert Exec(w, []) == w;
    assert Exec(w, [a]) == Next(w, a);
    assert Exec(w, [a, b]) == Next(Next(w, a), b);
    assert Exec(w, [a, b, c]) == Next(Next(Next(w, a), b), c);
  }

  /** A pay call up to its ledger lookup, and from there on to a verification that fails. */
  function LookupSteps(p: Pid, o: OrderId): seq<Step> {
    [DoCall(p, o), DoServeFetch(p, o), DoFetchArrives(p, o), DoAcquire(p, o)]
  }

  function SignSteps(p: Pid, o: OrderId, h: Hash): seq<Step> {
    [DoRecord(p, o, h), DoSend(p, o), DoBroadcastEnds(p, o), DoVerifyFails(p, o)]
  }

  function PaySteps(p: Pid, o: OrderId, h: Hash): seq<Step> { LookupSteps(p, o) + SignSteps(p, o, h) }

  /** The process may start a pay call for a pending order whose lock nobody live holds. */
  predicate CanPay(w: World, p: Pid, o: OrderId) {
    p in w.procs && o !in w.procs[p].calls && LockFree(w, o) && o in w.remote && w.remote[o] == RemotePending
  }

  /** The world after the lookup, which finds what the process's map has once it has read the file. */
  function LookedUp(w: World, p: Pid, o: OrderId): World
    requires p in w.procs
  {
    var q := Hydrate(w.procs[p], w.disk);
    if o in q.memory
    then w.(procs := w.procs[p := q.(calls := q.calls[o := Verifying(q.memory[o])])], locks := w.locks - {o})
    else w.(procs := w.procs[p := q.(calls := q.calls[o := Preparing])], locks := w.locks[o := p])
  }

  lemma AskedIsLocking(w: World, p: Pid, o: OrderId)
    requires CanPay(w, p, o)
    ensures FetchArrives(ServeFetch(Call(w, p, o), p, o), p, o) == SetPhase(w, p, o, Locking)
  {
    hide OnlyTouches, KeepsLedger;
    var w1 := Call(w, p, o);
    var w2 := ServeFetch(w1, p, o);
    assert w2 == SetPhase(w1, p, o, Fetched(RemotePending));
    assert w1.procs[p].calls[o := Fetched(RemotePending)] == w.procs[p].calls[o := Fetched(RemotePending)];
    assert w.procs[p := w2.procs[p]] == w2.procs;
    assert FetchArrives(w2, p, o) == SetPhase(w2, p, o, Locking);
    assert w2.procs[p].calls[o := Locking] == w.procs[p].calls[o := Locking];
  }

  lemma LockingLooksUp(w: World, p: Pid, o: OrderId)
    requires CanPay(w, p, o)
    ensures Acquire(SetPhase(w, p, o, Locking), p, o) == LookedUp(w, p, o)
  {
    hide OnlyTouches, KeepsLedger;
    var u, q := SetPhase(w, p, o, Locking), Hydrate(w.procs[p], w.disk);
    var phase := if o in q.memory then Verifying(q.memory[o]) else Preparing;
    assert Hydrate(u.procs[p], u.disk) == q.(calls := u.procs[p].calls);
    assert u.procs[p].calls[o := phase] == w.procs[p].calls[o := phase];
    assert u.procs[p := q.(calls := q.calls[o := phase])] == w.procs[p := q.(calls := q.calls[o := phase])];
  }

  lemma LookupReached(w: World, p: Pid, o: OrderId)
    requires CanPay(w, p, o)
    ensures Exec(w, LookupSteps(p, o)) == LookedUp(w, p, o)
  {
    hide Call, ServeFetch, FetchArrives, Acquire, OnlyTouches, KeepsLedger, LookedUp;
    ExecFour(w, DoCall(p, o), DoServeFetch(p, o), DoFetchArrives(p, o), DoAcquire(p, o));
    AskedIsLocking(w, p, o);
    LockingLooksUp(w, p, o);
  }

  /** The world after a whole call: the hash of a miss is in memory, on disk and sent; a hit sends nothing. */
  function Paid(w: World, p: Pid, o: OrderId, h: Hash): World
    requires p in w.procs
  {
    var q := Hydrate(w.procs[p], w.disk);
    if o in q.memory then w.(procs := w.procs[p := q], locks := w.locks - {o})
    else
      var m := q.memory[o := h];
      w.(procs := w.procs[p := q.(memory := m)], disk := m, locks := w.locks - {o},
         sent := w.sent[o := SentFor(w.sent, o) + {h}])
  }

  /** From the lookup to the end of the call, as the four functions. */
  function Signed(u: World, p: Pid, o: OrderId, h: Hash): World {
    VerifyFails(BroadcastEnds(SendToNode(Record(u, p, o, h), p, o), p, o), p, o)
  }

  lemma MissSigns(u: World, p: Pid, o: OrderId, h: Hash)
    requires InPhase(u, p, o) && PhaseOf(u, p, o) == Preparing
    ensures var q := u.procs[p];
            var m := q.memory[o := h];
            Signed(u, p, o, h) ==
            u.(procs := u.procs[p := Proc(q.hydrated, m, q.calls - {o})], disk := m, locks := u.locks - {o},
               sent := u.sent[o := SentFor(u.sent, o) + {h}])
  {
    hide OnlyTouches, KeepsLedger;
    var q, m := u.procs[p], u.procs[p].memory[o := h];
    var u1 := Record(u, p, o, h);
    assert u1.procs[p] == Proc(q.hydrated, m, q.calls[o := Broadcasting(h)]);
    var u2 := SendToNode(u1, p, o);
    var u3 := BroadcastEnds(u2, p, o);
    assert u3.procs[p].calls == q.calls[o := Verifying(h)];
    assert q.calls[o := Verifying(h)] - {o} == q.calls - {o};
    assert u3.procs[p := Proc(q.hydrated, m, q.calls - {o})] == u.procs[p := Proc(q.hydrated, m, q.calls - {o})];
  }

  lemma HitSigns(u: World, p: Pid, o: OrderId, h: Hash)
    requires InPhase(u, p, o) && PhaseOf(u, p, o).Verifying?
    ensures Signed(u, p, o, h) == EndCall(u, p, o)
  {
    hide OnlyTouches, KeepsLedger;
  }

  lemma SignReached(u: World, p: Pid, o: OrderId, h: Hash)
    ensures Exec(u, SignSteps(p, o, h)) == Signed(u, p, o, h)
  {
    hide Record, SendToNode, BroadcastEnds, VerifyFails, OnlyTouches, KeepsLedger;
    ExecFour(u, DoRecord(p, o, h), DoSend(p, o), DoBroadcastEnds(p, o), DoVerifyFails(p, o));
  }

  lemma MissIsPaid(w: World, p: Pid, o: OrderId, h: Hash)
    requires CanPay(w, p, o) && o !in Hydrate(w.procs[p], w.disk).memory
    ensures Signed(LookedUp(w, p, o), p, o, h) == Paid(w, p, o, h)
  {
    hide Signed;
    var u := LookedUp(w, p, o);
    MissSigns(u, p, o, h);
    assert u.procs[p].calls - {o} == w.procs[p].calls;
    assert u.procs[p := Paid(w, p, o, h).procs[p]] == Paid(w, p, o, h).procs;
    assert u.locks - {o} == w.locks - {o};
  }

  lemma HitIsPaid(w: World, p: Pid, o: OrderId, h: Hash)
    requires CanPay(w, p, o) && o in Hydrate(w.procs[p], w.disk).memory
    ensures Signed(LookedUp(w, p, o), p, o, h) == Paid(w, p, o, h)
  {
    hide Signed;
    var u := LookedUp(w, p, o);
    HitSigns(u, p, o, h);
    assert u.procs[p].calls - {o} == w.procs[p].calls;
    assert u.procs[p := Paid(w, p, o, h).procs[p]] == Paid(w, p, o, h).procs;
  }

  lemma PayReached(w: World, p: Pid, o: OrderId, h: Hash)
    requires CanPay(w, p, o)
    ensures Exec(w, PaySteps(p, o, h)) == Paid(w, p, o, h)
  {
    hide Exec, LookedUp, Paid, Signed;
    LookupReached(w, p, o);
    ExecAppend(w, LookupSteps(p, o), SignSteps(p, o, h));
    SignReached(LookedUp(w, p, o), p, o, h);
    if o in Hydrate(w.procs[p], w.disk).memory {
      HitIsPaid(w, p, o, h);
    } else {
      MissIsPaid(w, p, o, h);
    }
  }

  /**
   * Some hash was sent for a pending order. A further pay call sends a second one exactly when the process's map,
   * once it has read the file, lacks the order: it read the file too early, or the entry is gone from it.
   */
  lemma PaysAgainIff(w: World, p: Pid, o: OrderId, h: Hash, h': Hash)
    requires CanPay(w, p, o) && h in SentFor(w.sent, o) && AtMostOneSent(w.sent, o) && h' != h
    ensures !AtMostOneSent(Exec(w, PaySteps(p, o, h')).sent, o) <==> o !in Hydrate(w.procs[p], w.disk).memory
    ensures o !in Hydrate(w.procs[p], w.disk).memory <==>
            o !in w.procs[p].memory && (w.procs[p].hydrated || o !in w.disk)
  {
    PayReached(w, p, o, h');
    var sent := Paid(w, p, o, h').sent;
    assert h in SentFor(sent, o);
    if o !in Hydrate(w.procs[p], w.disk).memory { assert h' in SentFor(sent, o); }
  }

  /** Two processes start with two pending orders. */
  function StartSteps(p: Pid, q: Pid, o: OrderId, x: OrderId): seq<Step> {
    [BackendCreates(o), BackendCreates(x), StartProcess(p), StartProcess(q)]
  }

  function Started(p: Pid, q: Pid, o: OrderId, x: OrderId): World {
    World(map[p := Proc(false, map[], map[]), q := Proc(false, map[], map[])], map[], map[],
          map[o := RemotePending, x := RemotePending], map[])
  }

  lemma StartReached(p: Pid, q: Pid, o: OrderId, x: OrderId)
    requires p != q && o != x
    ensures Exec(Empty, StartSteps(p, q, o, x)) == Started(p, q, o, x)
  {
    hide CallStep;
    ExecFour(Empty, BackendCreates(o), BackendCreates(x), StartProcess(p), StartProcess(q));
  }

  /** The map is read too early: `q` pays another order, `p` pays the order, and `q` pays it again. */
  function EarlyReadRun(p: Pid, q: Pid, o: OrderId, x: OrderId, h: Hash, h': Hash, g: Hash): seq<Step> {
    StartSteps(p, q, o, x) + PaySteps(q, x, g) + PaySteps(p, o, h) + PaySteps(q, o, h')
  }

  lemma EarlyReadPaysTwice(p: Pid, q: Pid, o: OrderId, x: OrderId, h: Hash, h': Hash, g: Hash)
    requires p != q && o != x && h != h'
    ensures SentFor(Exec(Empty, EarlyReadRun(p, q, o, x, h, h', g)).sent, o) == {h, h'}
  {
    hide Exec, Next, Acquire;
    var w0 := Started(p, q, o, x);
    var w1 := Paid(w0, q, x, g);
    var w2 := Paid(w1, p, o, h);
    StartReached(p, q, o, x);
    PayReached(w0, q, x, g);
    PayReached(w1, p, o, h);
    PayReached(w2, q, o, h');
    ExecAppend(Empty, StartSteps(p, q, o, x), PaySteps(q, x, g));
    ExecAppend(Empty, StartSteps(p, q, o, x) + PaySteps(q, x, g), PaySteps(p, o, h));
    ExecAppend(Empty, StartSteps(p, q, o, x) + PaySteps(q, x, g) + PaySteps(p, o, h), PaySteps(q, o, h'));
  }

  /**
   * The entry is dropped: `q` has read the file, `p` pays the order, `q` writes its map over the file, all crash,
   * and a new process, which reads the file afresh, pays again.
   */
  function DroppedEntryRun(p: Pid, q: Pid, r: Pid, o: OrderId, x: OrderId, h: Hash, h': Hash, g: Hash): seq<Step> {
    StartSteps(p, q, o, x) + LookupSteps(q, x) + PaySteps(p, o, h)
    + [DoRecord(q, x, g), CrashProcess(p), CrashProcess(q), StartProcess(r)] + PaySteps(r, o, h')
  }

  lemma DropReached(w: World, p: Pid, q: Pid, r: Pid, x: OrderId, g: Hash)
    requires InPhase(w, q, x) && PhaseOf(w, q, x) == Preparing && w.procs.Keys == {p, q} && r != p && r != q
    ensures var t := Exec(w, [DoRecord(q, x, g), CrashProcess(p), CrashProcess(q), StartProcess(r)]);
            && t.procs == map[r := Proc(false, map[], map[])] && t.disk == w.procs[q].memory[x := g]
            && t.locks == w.locks && t.remote == w.remote && t.sent == w.sent
  {
    hide OnlyTouches, KeepsLedger;
    ExecFour(w, DoRecord(q, x, g), CrashProcess(p), CrashProcess(q), StartProcess(r));
    var w1 := Record(w, q, x, g);
    assert w1.procs.Keys == {p, q};
    assert w1.procs - {p} - {q} == map[];
  }

  lemma DroppedEntryPaysTwice(p: Pid, q: Pid, r: Pid, o: OrderId, x: OrderId, h: Hash, h': Hash, g: Hash)
    requires p != q && r != p && r != q && o != x && h != h'
    ensures SentFor(Exec(Empty, DroppedEntryRun(p, q, r, o, x, h, h', g)).sent, o) == {h, h'}
  {
    hide Exec, Next, Acquire;
    var w0 := Started(p, q, o, x);
    var w1 := LookedUp(w0, q, x);
    var w2 := Paid(w1, p, o, h);
    var drop := [DoRecord(q, x, g), CrashProcess(p), CrashProcess(q), StartProcess(r)];
    var w3 := Exec(w2, drop);
    StartReached(p, q, o, x);
    LookupReached(w0, q, x);
    PayReached(w1, p, o, h);
    DropReached(w2, p, q, r, x, g);
    PayReached(w3, r, o, h');
    var a := StartSteps(p, q, o, x) + LookupSteps(q, x);
    ExecAppend(Empty, StartSteps(p, q, o, x), LookupSteps(q, x));
    ExecAppend(Empty, a, PaySteps(p, o, h));
    ExecAppend(Empty, a + PaySteps(p, o, h), drop);
    ExecAppend(Empty, a + PaySteps(p, o, h) + drop, PaySteps(r, o, h'));
  }

  /**
   * The entry is cleared too soon: `q` sees the order pending, `p` pays it, it is delivered and its entry cleared,
   * and only then does `q` look it up.
   */
  function LateLookupRun(p: Pid, q: Pid, o: OrderId, x: OrderId, h: Hash, h': Hash): seq<Step> {
    StartSteps(p, q, o, x) + AskSteps(q, o) + LookupSteps(p, o) + DeliverSteps(p, o, h) + ClearSteps(p, q, o, h')
  }

  function AskSteps(q: Pid, o: OrderId): seq<Step> {
    [BackendCreates(o), DoCall(q, o), DoServeFetch(q, o), DoFetchArrives(q, o)]
  }

  function DeliverSteps(p: Pid, o: OrderId, h: Hash): seq<Step> {
    [DoRecord(p, o, h), DoSend(p, o), DoBroadcastEnds(p, o), BackendDelivers(o, h)]
  }

  function ClearSteps(p: Pid, q: Pid, o: OrderId, h': Hash): seq<Step> {
    [DoVerifySucceeds(p, o), DoAcquire(q, o), DoRecord(q, o, h'), DoSend(q, o)]
  }

  lemma AskReached(w: World, q: Pid, o: OrderId)
    requires CanPay(w, q, o)
    ensures Exec(w, AskSteps(q, o)) == SetPhase(w, q, o, Locking)
  {
    hide Call, ServeFetch, FetchArrives, OnlyTouches, KeepsLedger;
    ExecFour(w, BackendCreates(o), DoCall(q, o), DoServeFetch(q, o), DoFetchArrives(q, o));
    AskedIsLocking(w, q, o);
  }

  /** `p` is in a phase of its call with the order as its only entry, and `q` waits at the lock with none. */
  predicate Stage(w: World, p: Pid, q: Pid, o: OrderId, phase: Phase, remote: Remote, sent: set<Hash>) {
    && p != q && InPhase(w, p, o) && PhaseOf(w, p, o) == phase && w.procs[p].memory.Keys <= {o}
    && (phase.Broadcasting? || phase.Verifying? ==> o in w.procs[p].memory)
    && InPhase(w, q, o) && PhaseOf(w, q, o) == Locking && w.procs[q].memory == map[]
    && o in w.remote && w.remote[o] == remote && SentFor(w.sent, o) == sent
  }

  lemma StageRecord(w: World, p: Pid, q: Pid, o: OrderId, h: Hash)
    requires Stage(w, p, q, o, Preparing, RemotePending, {})
    ensures Stage(Record(w, p, o, h), p, q, o, Broadcasting(h), RemotePending, {})
  {
    hide OnlyTouches, KeepsLedger;
  }

  lemma StageSend(w: World, p: Pid, q: Pid, o: OrderId, h: Hash)
    requires Stage(w, p, q, o, Broadcasting(h), RemotePending, {})
    ensures Stage(SendToNode(w, p, o), p, q, o, Broadcasting(h), RemotePending, {h})
  {
    hide OnlyTouches, KeepsLedger;
  }

  lemma StageEnd(w: World, p: Pid, q: Pid, o: OrderId, h: Hash)
    requires Stage(w, p, q, o, Broadcasting(h), RemotePending, {h})
    ensures Stage(BroadcastEnds(w, p, o), p, q, o, Verifying(h), RemotePending, {h})
    ensures o !in BroadcastEnds(w, p, o).locks
  {
    hide OnlyTouches, KeepsLedger;
  }

  lemma DeliverIs(w: World, p: Pid, o: OrderId, h: Hash)
    ensures Exec(w, DeliverSteps(p, o, h)) ==
            Next(BroadcastEnds(SendToNode(Record(w, p, o, h), p, o), p, o), BackendDelivers(o, h))
  {
    hide Record, SendToNode, BroadcastEnds, OnlyTouches, KeepsLedger;
    ExecFour(w, DoRecord(p, o, h), DoSend(p, o), DoBroadcastEnds(p, o), BackendDelivers(o, h));
  }

  lemma DeliverReached(w: World, p: Pid, q: Pid, o: OrderId, h: Hash)
    requires Stage(w, p, q, o, Preparing, RemotePending, {})
    ensures var t := Exec(w, DeliverSteps(p, o, h));
            Stage(t, p, q, o, Verifying(h), RemoteDelivered(h), {h}) && o !in t.locks
  {
    hide Exec, CallStep, Record, SendToNode, BroadcastEnds, OnlyTouches, KeepsLedger;
    DeliverIs(w, p, o, h);
    StageRecord(w, p, q, o, h);
    StageSend(Record(w, p, o, h), p, q, o, h);
    StageEnd(SendToNode(Record(w, p, o, h), p, o), p, q, o, h);
  }

  lemma Cleared(w: World, p: Pid, q: Pid, o: OrderId, h: Hash)
    requires Stage(w, p, q, o, Verifying(h), RemoteDelivered(h), {h}) && o !in w.locks
    ensures var t := VerifySucceeds(w, p, o);
            && q in t.procs && t.procs[q] == w.procs[q] && t.disk == map[] && t.locks == w.locks && t.sent == w.sent
  {
    hide OnlyTouches, KeepsLedger;
    assert w.procs[p].memory - {o} == map[];
  }

  lemma MissesCleared(w: World, q: Pid, o: OrderId)
    requires InPhase(w, q, o) && PhaseOf(w, q, o) == Locking && o !in w.procs[q].memory && w.disk == map[]
             && o !in w.locks
    ensures InPhase(Acquire(w, q, o), q, o) && PhaseOf(Acquire(w, q, o), q, o) == Preparing
  {
    hide OnlyTouches, KeepsLedger;
  }

  lemma PreparedSends(w: World, q: Pid, o: OrderId, h: Hash)
    requires InPhase(w, q, o) && PhaseOf(w, q, o) == Preparing
    ensures SentFor(SendToNode(Record(w, q, o, h), q, o).sent, o) == SentFor(w.sent, o) + {h}
  {
    hide OnlyTouches, KeepsLedger;
    assert PhaseOf(Record(w, q, o, h), q, o) == Broadcasting(h);
  }

  lemma ClearIs(w: World, p: Pid, q: Pid, o: OrderId, h': Hash)
    ensures Exec(w, ClearSteps(p, q, o, h')) ==
            SendToNode(Record(Acquire(VerifySucceeds(w, p, o), q, o), q, o, h'), q, o)
  {
    hide VerifySucceeds, Acquire, Record, SendToNode, OnlyTouches, KeepsLedger;
    ExecFour(w, DoVerifySucceeds(p, o), DoAcquire(q, o), DoRecord(q, o, h'), DoSend(q, o));
  }

  lemma ClearReached(w: World, p: Pid, q: Pid, o: OrderId, h: Hash, h': Hash)
    requires Stage(w, p, q, o, Verifying(h), RemoteDelivered(h), {h}) && o !in w.locks
    ensures SentFor(Exec(w, ClearSteps(p, q, o, h')).sent, o) == {h, h'}
  {
    hide Exec, CallStep, VerifySucceeds, Acquire, Record, SendToNode, OnlyTouches, KeepsLedger;
    ClearIs(w, p, q, o, h');
    Cleared(w, p, q, o, h);
    MissesCleared(VerifySucceeds(w, p, o), q, o);
    PreparedSends(Acquire(VerifySucceeds(w, p, o), q, o), q, o, h');
  }

  lemma LateLookupPaysTwice(p: Pid, q: Pid, o: OrderId, x: OrderId, h: Hash, h': Hash)
    requires p != q && o != x && h != h'
    ensures SentFor(Exec(Empty, LateLookupRun(p, q, o, x, h, h')).sent, o) == {h, h'}
  {
    hide Exec, Next;
    var start, ask, lookup, deliver := StartSteps(p, q, o, x), AskSteps(q, o), LookupSteps(p, o), DeliverSteps(p, o, h);
    var w0 := Started(p, q, o, x);
    var w1 := SetPhase(w0, q, o, Locking);
    StartReached(p, q, o, x);
    AskReached(w0, q, o);
    LookupReached(w1, p, o);
    DeliverReached(LookedUp(w1, p, o), p, q, o, h);
    ClearReached(Exec(LookedUp(w1, p, o), deliver), p, q, o, h, h');
    ExecAppend(Empty, start, ask);
    ExecAppend(Empty, start + ask, lookup);
    ExecAppend(Empty, start + ask + lookup, deliver);
    ExecAppend(Empty, start + ask + lookup + deliver, ClearSteps(p, q, o, h'));
  }
}
