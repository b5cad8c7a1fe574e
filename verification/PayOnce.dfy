/**
 * Auto-pay in the SDK: the in-process mutex, the ledger in memory and on disk, the order lock,
 * record-before-broadcast and clear-only-on-verified, as steps from one await to the next,
 * with crashes and restarts. Any number of processes share the disk, the lock files and the backend.
 */
module PayOnce {
  import opened Common

  type OrderId = nat
  type Hash = nat
  type Pid = nat

  /** An order as `getOrder` shows it; `RemoteDelivered` carries the deploy hash that was verified. */
  datatype Remote = RemotePending | RemoteDelivered(hash: Hash) | RemoteClosed

  /** Where a `payAndVerifyOrder` call is suspended. */
  datatype Phase =
    | Fetching
    | Fetched(seen: Remote)
    | Locking
    | Preparing
    | Broadcasting(hash: Hash)
    | Verifying(hash: Hash)

  /** One process: `inflightPayments`, `ledgerHydrated` and, per order, the call holding the mutex. */
  datatype Proc = Proc(hydrated: bool, memory: map<OrderId, Hash>, calls: map<OrderId, Phase>)

  datatype World = World(
    procs: map<Pid, Proc>,
    disk: map<OrderId, Hash>,
    locks: map<OrderId, Pid>,
    remote: map<OrderId, Remote>,
    sent: map<OrderId, set<Hash>>)

  // ---- The ledger --------------------------------------------------------------------------------------

  /** Entries of the file are added to the map once per process; the map then shadows the file. */
  function Hydrate(p: Proc, disk: map<OrderId, Hash>): Proc {
    if p.hydrated then p else p.(hydrated := true, memory := p.memory + disk)
  }

  function Entry<T>(m: map<OrderId, T>, o: OrderId): Option<T> { if o in m then Some(m[o]) else None }

  class Ledger {
    var memory: map<OrderId, Hash>
    var hydrated: bool
    var disk: map<OrderId, Hash>

    function AsProc(calls: map<OrderId, Phase>): Proc
      reads this
    {
      Proc(hydrated, memory, calls)
    }

    /** The map is the file once it was read, and empty before. */
    predicate InSync()
      reads this
    {
      memory == if hydrated then disk else map[]
    }

    /** What a lookup answers here, and what it answers after a crash in a process started on the same file. */
    function Known(o: OrderId): Option<Hash>
      reads this
    {
      Entry(Hydrate(AsProc(map[]), disk).memory, o)
    }

    function Recovered(o: OrderId): Option<Hash>
      reads this
    {
      Entry(Hydrate(Proc(false, map[], map[]), disk).memory, o)
    }

    constructor (disk: map<OrderId, Hash>)
      ensures this.disk == disk && !hydrated && InSync()
      ensures forall o :: Known(o) == Entry(disk, o)
    {
      this.disk, hydrated, memory := disk, false, map[];
    }

    method HydrateOnce()
      modifies this`memory, this`hydrated
      ensures AsProc(map[]) == Hydrate(old(AsProc(map[])), disk)
      ensures old(InSync()) ==> InSync()
    {
      if hydrated { return; }
      hydrated := true;
      memory := memory + disk;
    }

    method Get(o: OrderId) returns (entry: Option<Hash>)
      modifies this`memory, this`hydrated
      ensures AsProc(map[]) == Hydrate(old(AsProc(map[])), disk)
      ensures entry == old(Known(o)) == Known(o)
      ensures old(InSync()) ==> InSync()
    {
      HydrateOnce();
      entry := Entry(memory, o);
    }

    /** The entry survives a crash; a process whose map is the file loses none of the others. */
    method Record(o: OrderId, h: Hash)
      modifies this`memory, this`disk
      ensures memory == old(memory)[o := h] && disk == memory
      ensures Known(o) == Recovered(o) == Some(h)
      ensures old(hydrated && InSync()) ==>
                InSync() && forall x :: x != o ==> Known(x) == Recovered(x) == old(Recovered(x))
      ensures forall x :: x != o && old(hydrated) ==> Recovered(x) == old(Known(x))
    {
      memory := memory[o := h];
      disk := memory;
    }

    /** The entry is gone for good, and again a process whose map is the file loses none of the others. */
    method Clear(o: OrderId)
      modifies this`memory, this`disk
      ensures memory == old(memory) - {o}
      ensures disk == if o in old(memory) then memory else old(disk)
      ensures old(hydrated && InSync()) ==>
                InSync() && Known(o) == Recovered(o) == None
                && forall x :: x != o ==> Known(x) == Recovered(x) == old(Recovered(x))
    {
      if o !in memory { return; }
      memory := memory - {o};
      disk := memory;
    }
  }

  /** Recorded, crashed, restarted, looked up: the retry finds the hash it has to verify. */
  method RecordThenCrash(l: Ledger, o: OrderId, h: Hash) returns (entry: Option<Hash>)
    modifies l
    ensures entry == Some(h)
  {
    l.Record(o, h);
    var restarted := new Ledger(l.disk);
    entry := restarted.Get(o);
  }

  // ---- Steps ---------------------------------------------------------------------------------------------

  predicate InPhase(w: World, p: Pid, o: OrderId) { p in w.procs && o in w.procs[p].calls }

  function PhaseOf(w: World, p: Pid, o: OrderId): Phase
    requires InPhase(w, p, o)
  {
    w.procs[p].calls[o]
  }

  function SetPhase(w: World, p: Pid, o: OrderId, phase: Phase): World
    requires p in w.procs
  {
    w.(procs := w.procs[p := w.procs[p].(calls := w.procs[p].calls[o := phase])])
  }

  function EndCall(w: World, p: Pid, o: OrderId): World
    requires p in w.procs
  {
    w.(procs := w.procs[p := w.procs[p].(calls := w.procs[p].calls - {o})])
  }

  function SentFor(sent: map<OrderId, set<Hash>>, o: OrderId): set<Hash> { if o in sent then sent[o] else {} }

  /**
   * What a step of process `p`'s call for `o` leaves alone: other processes, other calls, other orders, the
   * backend.
   */
  ghost predicate OnlyTouches(w: World, w': World, p: Pid, o: OrderId) {
    && w'.remote == w.remote
    && (forall q :: q in w'.procs <==> q in w.procs)
    && (forall q :: q in w.procs && q != p ==> w'.procs[q] == w.procs[q])
    && (p in w.procs ==> forall x :: x != o ==> Entry(w'.procs[p].calls, x) == Entry(w.procs[p].calls, x))
    && (forall x :: x != o ==> Entry(w'.locks, x) == Entry(w.locks, x))
    && (forall x :: x != o ==> SentFor(w'.sent, x) == SentFor(w.sent, x))
  }

  /** The file and every map of it stay as they are. */
  ghost predicate KeepsLedger(w: World, w': World) {
    && w'.disk == w.disk
    && (forall p :: p in w.procs && p in w'.procs ==>
          w'.procs[p].hydrated == w.procs[p].hydrated && w'.procs[p].memory == w.procs[p].memory)
  }

  /** A second call for an order in progress joins the first and takes no step of its own. */
  function Call(w: World, p: Pid, o: OrderId): (w': World)
    ensures OnlyTouches(w, w', p, o)
    ensures KeepsLedger(w, w') && w'.sent == w.sent && w'.locks == w.locks
  {
    if p !in w.procs || o in w.procs[p].calls then w else SetPhase(w, p, o, Fetching)
  }

  /** The backend answers `getOrder`; the answer may be old by the time it arrives. */
  function ServeFetch(w: World, p: Pid, o: OrderId): (w': World)
    ensures OnlyTouches(w, w', p, o)
    ensures KeepsLedger(w, w') && w'.sent == w.sent && w'.locks == w.locks
  {
    if InPhase(w, p, o) && PhaseOf(w, p, o) == Fetching && o in w.remote
    then SetPhase(w, p, o, Fetched(w.remote[o])) else w
  }

  function FetchArrives(w: World, p: Pid, o: OrderId): (w': World)
    ensures OnlyTouches(w, w', p, o)
    ensures KeepsLedger(w, w') && w'.sent == w.sent && w'.locks == w.locks
  {
    if !InPhase(w, p, o) || !PhaseOf(w, p, o).Fetched? then w
    else if PhaseOf(w, p, o).seen == RemotePending then SetPhase(w, p, o, Locking)
    else EndCall(w, p, o)
  }

  /** The lock file is absent, or its holder is gone and the file is stolen as stale (see OrderLock). */
  predicate LockFree(w: World, o: OrderId) { o !in w.locks || w.locks[o] !in w.procs }

  /** Creating the lock file and, in the same stretch, looking the order up in the ledger. */
  function Acquire(w: World, p: Pid, o: OrderId): (w': World)
    ensures OnlyTouches(w, w', p, o)
    ensures w'.disk == w.disk && w'.sent == w.sent
  {
    if !InPhase(w, p, o) || PhaseOf(w, p, o) != Locking || !LockFree(w, o) then w
    else
      var q := Hydrate(w.procs[p], w.disk);
      if o in q.memory
      then w.(procs := w.procs[p := q.(calls := q.calls[o := Verifying(q.memory[o])])], locks := w.locks - {o})
      else w.(procs := w.procs[p := q.(calls := q.calls[o := Preparing])], locks := w.locks[o := p])
  }

  /** Signed: the hash goes to memory and to disk before any node is contacted. */
  function Record(w: World, p: Pid, o: OrderId, h: Hash): (w': World)
    ensures OnlyTouches(w, w', p, o)
    ensures w'.sent == w.sent && w'.locks == w.locks
  {
    if !InPhase(w, p, o) || PhaseOf(w, p, o) != Preparing then w
    else
      var q := w.procs[p].(memory := w.procs[p].memory[o := h], calls := w.procs[p].calls[o := Broadcasting(h)]);
      w.(procs := w.procs[p := q], disk := q.memory)
  }

  /** One attempt of the failover loop; whether the node accepted is unknown. */
  function SendToNode(w: World, p: Pid, o: OrderId): (w': World)
    ensures OnlyTouches(w, w', p, o)
    ensures KeepsLedger(w, w') && w'.locks == w.locks
  {
    if InPhase(w, p, o) && PhaseOf(w, p, o).Broadcasting?
    then w.(sent := w.sent[o := SentFor(w.sent, o) + {PhaseOf(w, p, o).hash}]) else w
  }

  /** The loop is over: the lock file is removed, whoever holds it, and verification starts. */
  function BroadcastEnds(w: World, p: Pid, o: OrderId): (w': World)
    ensures OnlyTouches(w, w', p, o)
    ensures KeepsLedger(w, w') && w'.sent == w.sent
  {
    if InPhase(w, p, o) && PhaseOf(w, p, o).Broadcasting?
    then SetPhase(w.(locks := w.locks - {o}), p, o, Verifying(PhaseOf(w, p, o).hash)) else w
  }

  /** A throw before anything was signed; inside the lock it also releases it. */
  function Refuse(w: World, p: Pid, o: OrderId): (w': World)
    ensures OnlyTouches(w, w', p, o)
    ensures KeepsLedger(w, w') && w'.sent == w.sent
  {
    if !InPhase(w, p, o) || PhaseOf(w, p, o).Broadcasting? || PhaseOf(w, p, o).Verifying? then w
    else if PhaseOf(w, p, o) == Preparing then EndCall(w.(locks := w.locks - {o}), p, o)
    else EndCall(w, p, o)
  }

  /** Verify answers success only for an order delivered under this very hash; then the entry is cleared. */
  function VerifySucceeds(w: World, p: Pid, o: OrderId): (w': World)
    ensures OnlyTouches(w, w', p, o)
    ensures w'.sent == w.sent && w'.locks == w.locks
  {
    if !InPhase(w, p, o) || !PhaseOf(w, p, o).Verifying? || o !in w.remote ||
       w.remote[o] != RemoteDelivered(PhaseOf(w, p, o).hash)
    then w
    else
      var w1 := EndCall(w, p, o);
      if o !in w.procs[p].memory then w1
      else
        var q := w1.procs[p].(memory := w.procs[p].memory - {o});
        w1.(procs := w1.procs[p := q], disk := q.memory)
  }

  /** Any failure of verify ends the call and keeps the entry. */
  function VerifyFails(w: World, p: Pid, o: OrderId): (w': World)
    ensures OnlyTouches(w, w', p, o)
    ensures KeepsLedger(w, w') && w'.sent == w.sent && w'.locks == w.locks
  {
    if InPhase(w, p, o) && PhaseOf(w, p, o).Verifying? then EndCall(w, p, o) else w
  }

  datatype Step =
    | StartProcess(pid: Pid)
    | CrashProcess(pid: Pid)
    | DoCall(pid: Pid, order: OrderId)
    | DoServeFetch(pid: Pid, order: OrderId)
    | DoFetchArrives(pid: Pid, order: OrderId)
    | DoAcquire(pid: Pid, order: OrderId)
    | DoRecord(pid: Pid, order: OrderId, hash: Hash)
    | DoSend(pid: Pid, order: OrderId)
    | DoBroadcastEnds(pid: Pid, order: OrderId)
    | DoRefuse(pid: Pid, order: OrderId)
    | DoVerifySucceeds(pid: Pid, order: OrderId)
    | DoVerifyFails(pid: Pid, order: OrderId)
    | BackendCreates(order: OrderId)
    | BackendDelivers(order: OrderId, hash: Hash)
    | BackendCloses(order: OrderId)

  /** The steps that read the file into a map or write a map to the file. */
  predicate WritesLedger(step: Step) { step.DoAcquire? || step.DoRecord? || step.DoVerifySucceeds? }

  predicate WritesLock(step: Step) { step.DoAcquire? || step.DoBroadcastEnds? || step.DoRefuse? }

  predicate OfCall(step: Step) {
    !step.StartProcess? && !step.CrashProcess? && !step.BackendCreates? && !step.BackendDelivers?
      && !step.BackendCloses?
  }

  function CallStep(w: World, step: Step): (w': World)
    requires OfCall(step)
    ensures OnlyTouches(w, w', step.pid, step.order)
    ensures !WritesLedger(step) ==> KeepsLedger(w, w')
    ensures step.DoAcquire? ==> w'.disk == w.disk
    ensures !step.DoSend? ==> w'.sent == w.sent
    ensures !WritesLock(step) ==> w'.locks == w.locks
  {
    match step
    case DoCall(p, o) => Call(w, p, o)
    case DoServeFetch(p, o) => ServeFetch(w, p, o)
    case DoFetchArrives(p, o) => FetchArrives(w, p, o)
    case DoAcquire(p, o) => Acquire(w, p, o)
    case DoRecord(p, o, h) => Record(w, p, o, h)
    case DoSend(p, o) => SendToNode(w, p, o)
    case DoBroadcastEnds(p, o) => BroadcastEnds(w, p, o)
    case DoRefuse(p, o) => Refuse(w, p, o)
    case DoVerifySucceeds(p, o) => VerifySucceeds(w, p, o)
    case DoVerifyFails(p, o) => VerifyFails(w, p, o)
  }

  function Next(w: World, step: Step): World {
    match step
    case StartProcess(p) => if p in w.procs then w else w.(procs := w.procs[p := Proc(false, map[], map[])])
    case CrashProcess(p) => w.(procs := w.procs - {p})
    case BackendCreates(o) => if o in w.remote then w else w.(remote := w.remote[o := RemotePending])
    // Only a pending order moves: delivered and closed are final in the backend.
    case BackendDelivers(o, h) =>
      if o in w.remote && w.remote[o] == RemotePending then w.(remote := w.remote[o := RemoteDelivered(h)]) else w
    case BackendCloses(o) =>
      if o in w.remote && w.remote[o] == RemotePending then w.(remote := w.remote[o := RemoteClosed]) else w
    case _ => CallStep(w, step)
  }

  /** A process starts only when none is running. */
  predicate NonOverlapping(w: World, step: Step) { step.StartProcess? ==> w.procs == map[] }

  function Exec(w: World, steps: seq<Step>): World {
    if steps == [] then w else Next(Exec(w, steps[..|steps| - 1]), steps[|steps| - 1])
  }

  predicate Run(w: World, steps: seq<Step>) {
    steps == [] ||
    (Run(w, steps[..|steps| - 1]) && NonOverlapping(Exec(w, steps[..|steps| - 1]), steps[|steps| - 1]))
  }

  const Empty: World := World(map[], map[], map[], map[], map[])

  // ---- What one call does --------------------------------------------------------------------------------------

  function PhaseAt(w: World, p: Pid, o: OrderId): Option<Phase> {
    if p in w.procs then Entry(w.procs[p].calls, o) else None
  }

  /** A lookup of the ledger: the map, and behind it the file if the process has not read it yet. */
  function Lookup(w: World, p: Pid, o: OrderId): Option<Hash>
    requires p in w.procs
  {
    if !w.procs[p].hydrated && o in w.disk then Some(w.disk[o]) else Entry(w.procs[p].memory, o)
  }

  /** A call up to its lock: only an order seen pending goes on to be paid; a throw ends the call and frees its lock. */
  lemma CallMoves(w: World, p: Pid, o: OrderId)
    requires p in w.procs
    ensures PhaseAt(Call(w, p, o), p, o) ==
            if PhaseAt(w, p, o).None? then Some(Fetching) else PhaseAt(w, p, o)
    ensures PhaseAt(w, p, o) == Some(Fetching) && o in w.remote ==>
              PhaseAt(ServeFetch(w, p, o), p, o) == Some(Fetched(w.remote[o]))
    ensures forall seen :: PhaseAt(w, p, o) == Some(Fetched(seen)) ==>
              PhaseAt(FetchArrives(w, p, o), p, o) == if seen == RemotePending then Some(Locking) else None
    ensures PhaseAt(w, p, o).Some? && PhaseAt(w, p, o).value in {Fetching, Locking, Preparing} ==>
              var w' := Refuse(w, p, o);
              && PhaseAt(w', p, o).None?
              && Entry(w'.locks, o) == (if PhaseAt(w, p, o) == Some(Preparing) then None else Entry(w.locks, o))
  {}

  /** Behind a free lock a recorded hash is verified; without one the lock is kept for paying. */
  lemma AcquireAnswers(w: World, p: Pid, o: OrderId)
    requires p in w.procs && PhaseAt(w, p, o) == Some(Locking)
    ensures o in w.locks && w.locks[o] in w.procs ==> Acquire(w, p, o) == w
    ensures (o in w.locks ==> w.locks[o] !in w.procs) ==>
              var w', known := Acquire(w, p, o), Lookup(w, p, o);
              && PhaseAt(w', p, o) == Some(if known.Some? then Verifying(known.value) else Preparing)
              && Entry(w'.locks, o) == (if known.Some? then None else Some(p))
              && w'.procs[p].hydrated && Entry(w'.procs[p].memory, o) == known
  {}

  /** A call from its signature on: recorded first, then sent, then verified; only success clears the record. */
  lemma SignedCallMoves(w: World, p: Pid, o: OrderId, h: Hash)
    requires p in w.procs
    ensures PhaseAt(w, p, o) == Some(Preparing) ==>
              var w' := Record(w, p, o, h);
              PhaseAt(w', p, o) == Some(Broadcasting(h)) && Lookup(w', p, o) == Some(h) && Entry(w'.disk, o) == Some(h)
    ensures PhaseAt(w, p, o) == Some(Broadcasting(h)) ==>
              && PhaseAt(SendToNode(w, p, o), p, o) == Some(Broadcasting(h))
              && SentFor(SendToNode(w, p, o).sent, o) == SentFor(w.sent, o) + {h}
              && PhaseAt(BroadcastEnds(w, p, o), p, o) == Some(Verifying(h))
              && o !in BroadcastEnds(w, p, o).locks
    ensures PhaseAt(w, p, o) == Some(Verifying(h)) ==>
              && PhaseAt(VerifyFails(w, p, o), p, o).None?
              && (Entry(w.remote, o) == Some(RemoteDelivered(h)) ==>
                    PhaseAt(VerifySucceeds(w, p, o), p, o).None?
                    && Entry(VerifySucceeds(w, p, o).procs[p].memory, o).None?
                    && (o !in w.procs[p].memory ==> VerifySucceeds(w, p, o).disk == w.disk))
              && (Entry(w.remote, o) != Some(RemoteDelivered(h)) ==> VerifySucceeds(w, p, o) == w)
  {}

  /** In the backend an order is new once, and only a pending one is delivered or closed. */
  lemma BackendMoves(w: World, o: OrderId, h: Hash)
    ensures Next(w, BackendCreates(o)) == if o in w.remote then w else w.(remote := w.remote[o := RemotePending])
    ensures Entry(w.remote, o) == Some(RemotePending) ==>
              && Next(w, BackendDelivers(o, h)) == w.(remote := w.remote[o := RemoteDelivered(h)])
              && Next(w, BackendCloses(o)) == w.(remote := w.remote[o := RemoteClosed])
    ensures Entry(w.remote, o) != Some(RemotePending) ==>
              Next(w, BackendDelivers(o, h)) == w && Next(w, BackendCloses(o)) == w
  {}

  /** Nothing is sent outside the broadcast, and nothing signed is refused. */
  lemma SignedOnly(w: World, p: Pid, o: OrderId)
    ensures !(exists h :: PhaseAt(w, p, o) == Some(Broadcasting(h))) ==> SendToNode(w, p, o) == w
    ensures (exists h :: PhaseAt(w, p, o) == Some(Broadcasting(h)) || PhaseAt(w, p, o) == Some(Verifying(h))) ==>
              Refuse(w, p, o) == w
  {}

  // ---- The lock over all runs ----------------------------------------------------------------------------------

  /** Inside the lock: between the lookup that missed and the end of the broadcast. */
  predicate Inside(phase: Phase) { phase.Preparing? || phase.Broadcasting? }

  /** Every live call inside the lock is the one the lock file names. */
  ghost predicate HoldersOk(w: World) {
    forall p, o :: HolderOk(w, p, o)
  }

  predicate HolderOk(w: World, p: Pid, o: OrderId) {
    InPhase(w, p, o) && Inside(PhaseOf(w, p, o)) ==> o in w.locks && w.locks[o] == p
  }

  /** The step is one of process `p`'s call for `o`. */
  predicate Acts(step: Step, p: Pid, o: OrderId) { OfCall(step) && step.pid == p && step.order == o }

  /** The step is about the order, or may be. */
  predicate About(step: Step, o: OrderId) { !step.StartProcess? && !step.CrashProcess? && step.order == o }

  /** A step moves its own call and no other. */
  lemma OtherCallsStay(w: World, step: Step, p: Pid, o: OrderId)
    requires !Acts(step, p, o) && InPhase(Next(w, step), p, o)
    ensures InPhase(w, p, o) && PhaseOf(Next(w, step), p, o) == PhaseOf(w, p, o)
  {
    hide CallStep;
    if OfCall(step) && step.pid == p { assert Entry(Next(w, step).procs[p].calls, o) == Entry(w.procs[p].calls, o); }
  }

  lemma LocksOfOthersStay(w: World, step: Step, o: OrderId)
    requires !About(step, o)
    ensures Entry(Next(w, step).locks, o) == Entry(w.locks, o)
  {
    hide CallStep;
  }

  lemma LockWrite(w: World, step: Step, p: Pid, o: OrderId)
    requires HoldersOk(w) && WritesLock(step) && step.order == o && step.pid != p
    requires InPhase(w, p, o) && Inside(PhaseOf(w, p, o))
    ensures Next(w, step).locks == w.locks
  {
    assert HolderOk(w, p, o) && HolderOk(w, step.pid, o);
  }

  lemma OwnHolder(w: World, step: Step, p: Pid, o: OrderId)
    requires HoldersOk(w) && Acts(step, p, o)
    ensures HolderOk(Next(w, step), p, o)
  {
    assert HolderOk(w, p, o);
  }

  /** A lock file is written by its one holder, or while it has none. */
  lemma NextHolder(w: World, step: Step, p: Pid, o: OrderId)
    requires HoldersOk(w)
    ensures HolderOk(Next(w, step), p, o)
  {
    hide CallStep;
    assert HolderOk(w, p, o);
    if Acts(step, p, o) {
      OwnHolder(w, step, p, o);
    } else if InPhase(Next(w, step), p, o) && Inside(PhaseOf(Next(w, step), p, o)) {
      OtherCallsStay(w, step, p, o);
      if !About(step, o) {
        LocksOfOthersStay(w, step, o);
      } else if WritesLock(step) {
        LockWrite(w, step, p, o);
      }
    }
  }

  lemma {:induction false} RunHolders(steps: seq<Step>)
    ensures HoldersOk(Exec(Empty, steps))
  {
    if steps != [] {
      var w, step := Exec(Empty, steps[..|steps| - 1]), steps[|steps| - 1];
      RunHolders(steps[..|steps| - 1]);
      forall p, o ensures HolderOk(Next(w, step), p, o) { NextHolder(w, step, p, o); }
    }
  }

  /** Over every run, overlapping processes and crashes included, one live process at most is inside an order's lock. */
  lemma OneInsideOverRuns(steps: seq<Step>, p: Pid, p': Pid, o: OrderId)
    requires var w := Exec(Empty, steps);
             InPhase(w, p, o) && Inside(PhaseOf(w, p, o)) && InPhase(w, p', o) && Inside(PhaseOf(w, p', o))
    ensures p == p'
  {
    RunHolders(steps);
    assert HolderOk(Exec(Empty, steps), p, o) && HolderOk(Exec(Empty, steps), p', o);
  }

  // ---- Processes that share the ledger ---------------------------------------------------------------------------

  /** Past its status check and not yet done broadcasting. */
  predicate Underway(phase: Phase) {
    phase == Fetched(RemotePending) || phase == Locking || Inside(phase)
  }

  /** The other entries of the file are kept as they are. */
  predicate KeepsOthers(disk: map<OrderId, Hash>, disk': map<OrderId, Hash>, o: OrderId) {
    forall x :: x != o && x in disk ==> x in disk' && disk'[x] == disk[x]
  }

  predicate NoOtherUnderway(procs: map<Pid, Proc>, p: Pid, o: OrderId) {
    forall q :: q in procs && q != p && o in procs[q].calls ==> !Underway(procs[q].calls[o])
  }

  /**
   * What sharing the ledger takes: no lookup misses an entry that is on disk, no write of the file drops an entry
   * of another order, and no entry is cleared while another process is underway with its order.
   */
  predicate Shares(w: World, step: Step) {
    match step
    case DoAcquire(p, o) =>
      InPhase(w, p, o) && PhaseOf(w, p, o) == Locking && LockFree(w, o) && o in w.disk ==>
        o in Hydrate(w.procs[p], w.disk).memory
    case DoRecord(_, o, _) => KeepsOthers(w.disk, Next(w, step).disk, o)
    case DoVerifySucceeds(p, o) =>
      && KeepsOthers(w.disk, Next(w, step).disk, o)
      && (InPhase(w, p, o) && PhaseOf(w, p, o).Verifying? ==> NoOtherUnderway(w.procs, p, o))
    case _ => true
  }

  predicate SharedRun(w: World, steps: seq<Step>) {
    steps == [] ||
    (SharedRun(w, steps[..|steps| - 1]) && Shares(Exec(w, steps[..|steps| - 1]), steps[|steps| - 1]))
  }

  /** Everything sent for the order is on disk, and nothing was sent if it has no entry there. */
  predicate Accounted(sent: map<OrderId, set<Hash>>, disk: map<OrderId, Hash>, o: OrderId) {
    forall h :: h in SentFor(sent, o) ==> o in disk && disk[o] == h
  }

  predicate Delivered(remote: map<OrderId, Remote>, o: OrderId) { o in remote && remote[o].RemoteDelivered? }

  predicate AtMostOneSent(sent: map<OrderId, set<Hash>>, o: OrderId) {
    forall h, h' :: h in SentFor(sent, o) && h' in SentFor(sent, o) ==> h == h'
  }

  /** What a call knows: nothing sent is missing on disk, nothing is sent before its hash is recorded. */
  predicate CallOk(sent: map<OrderId, set<Hash>>, disk: map<OrderId, Hash>, o: OrderId, phase: Phase) {
    && (Underway(phase) ==> Accounted(sent, disk, o))
    && (phase.Preparing? ==> SentFor(sent, o) == {})
    && (phase.Broadcasting? ==> Entry(disk, o) == Some(phase.hash))
  }

  predicate CallKnown(w: World, p: Pid, o: OrderId) {
    InPhase(w, p, o) ==> CallOk(w.sent, w.disk, o, PhaseOf(w, p, o))
  }

  predicate OrderOk(sent: map<OrderId, set<Hash>>, disk: map<OrderId, Hash>, remote: map<OrderId, Remote>, o: OrderId) {
    (Accounted(sent, disk, o) || Delivered(remote, o)) && AtMostOneSent(sent, o)
  }

  ghost predicate Inv(w: World) {
    && HoldersOk(w)
    && (forall p, o :: CallKnown(w, p, o))
    && (forall o :: OrderOk(w.sent, w.disk, w.remote, o))
  }

  /** The order has the same hashes sent, and its entry on disk if it had one. */
  predicate BooksKept(w: World, w': World, o: OrderId) {
    SentFor(w'.sent, o) == SentFor(w.sent, o) && (o in w.disk ==> Entry(w'.disk, o) == Entry(w.disk, o))
  }

  lemma KeptBooksOk(w: World, step: Step, o: OrderId)
    requires Inv(w) && BooksKept(w, Next(w, step), o)
    ensures OrderOk(Next(w, step).sent, Next(w, step).disk, Next(w, step).remote, o)
  {
    hide CallStep;
    assert OrderOk(w.sent, w.disk, w.remote, o);
  }

  /** The steps that write neither the file nor what was sent. */
  lemma QuietBooks(w: World, step: Step, o: OrderId)
    requires !step.DoSend? && !step.DoRecord? && !step.DoVerifySucceeds?
    ensures Next(w, step).sent == w.sent && Next(w, step).disk == w.disk
  {
    hide CallStep;
  }

  lemma OtherBooks(w: World, step: Step, o: OrderId)
    requires Shares(w, step) && !About(step, o)
    ensures BooksKept(w, Next(w, step), o)
  {}

  lemma OwnBookedCall(w: World, step: Step, p: Pid, o: OrderId)
    requires Inv(w) && Acts(step, p, o) && (step.DoSend? || step.DoRecord? || step.DoVerifySucceeds?)
    ensures CallKnown(Next(w, step), p, o)
  {
    assert CallKnown(w, p, o);
  }

  /** A lookup that misses finds nothing sent, for it misses no entry that is on disk. */
  lemma OwnLookup(w: World, step: Step, p: Pid, o: OrderId)
    requires Inv(w) && Shares(w, step) && step == DoAcquire(p, o)
    ensures CallKnown(Next(w, step), p, o)
  {
    assert CallKnown(w, p, o);
  }

  lemma OwnQuietCall(w: World, step: Step, p: Pid, o: OrderId)
    requires Inv(w) && Acts(step, p, o)
    requires !step.DoSend? && !step.DoRecord? && !step.DoVerifySucceeds? && !step.DoAcquire?
    ensures CallKnown(Next(w, step), p, o)
  {
    assert CallKnown(w, p, o) && OrderOk(w.sent, w.disk, w.remote, o);
  }

  lemma OwnCall(w: World, step: Step, p: Pid, o: OrderId)
    requires Inv(w) && Shares(w, step) && Acts(step, p, o)
    ensures CallKnown(Next(w, step), p, o)
  {
    if step.DoSend? || step.DoRecord? || step.DoVerifySucceeds? {
      OwnBookedCall(w, step, p, o);
    } else if step.DoAcquire? {
      OwnLookup(w, step, p, o);
    } else {
      OwnQuietCall(w, step, p, o);
    }
  }

  lemma RivalBooks(w: World, step: Step, p: Pid, o: OrderId)
    requires Inv(w) && Shares(w, step) && !Acts(step, p, o) && About(step, o) && InPhase(w, p, o)
    requires step.DoSend? || step.DoRecord? || step.DoVerifySucceeds?
    ensures CallOk(Next(w, step).sent, Next(w, step).disk, o, PhaseOf(w, p, o))
  {
    assert CallKnown(w, p, o) && HolderOk(w, p, o);
    assert CallKnown(w, step.pid, o) && HolderOk(w, step.pid, o);
  }

  /** What another process does about the order leaves a call's knowledge true. */
  lemma RivalCall(w: World, step: Step, p: Pid, o: OrderId)
    requires Inv(w) && Shares(w, step) && !Acts(step, p, o) && About(step, o) && InPhase(w, p, o)
    ensures CallOk(Next(w, step).sent, Next(w, step).disk, o, PhaseOf(w, p, o))
  {
    hide CallStep;
    assert CallKnown(w, p, o);
    if step.DoSend? || step.DoRecord? || step.DoVerifySucceeds? {
      RivalBooks(w, step, p, o);
    } else {
      QuietBooks(w, step, o);
    }
  }

  lemma NextCall(w: World, step: Step, p: Pid, o: OrderId)
    requires Inv(w) && Shares(w, step)
    ensures CallKnown(Next(w, step), p, o)
  {
    hide CallStep;
    if Acts(step, p, o) {
      OwnCall(w, step, p, o);
    } else if InPhase(Next(w, step), p, o) {
      OtherCallsStay(w, step, p, o);
      assert CallKnown(w, p, o);
      if !About(step, o) {
        OtherBooks(w, step, o);
      } else {
        RivalCall(w, step, p, o);
      }
    }
  }

  lemma BookedStep(w: World, step: Step, o: OrderId)
    requires Inv(w) && Shares(w, step) && About(step, o) && (step.DoSend? || step.DoRecord? || step.DoVerifySucceeds?)
    ensures OrderOk(Next(w, step).sent, Next(w, step).disk, Next(w, step).remote, o)
  {
    assert OrderOk(w.sent, w.disk, w.remote, o) && CallKnown(w, step.pid, o);
  }

  lemma NextOrder(w: World, step: Step, o: OrderId)
    requires Inv(w) && Shares(w, step)
    ensures OrderOk(Next(w, step).sent, Next(w, step).disk, Next(w, step).remote, o)
  {
    hide CallStep;
    if !About(step, o) {
      OtherBooks(w, step, o);
      KeptBooksOk(w, step, o);
    } else if step.DoSend? || step.DoRecord? || step.DoVerifySucceeds? {
      BookedStep(w, step, o);
    } else {
      QuietBooks(w, step, o);
      KeptBooksOk(w, step, o);
    }
  }

  lemma NextInv(w: World, step: Step)
    requires Inv(w) && Shares(w, step)
    ensures Inv(Next(w, step))
  {
    forall p, o ensures HolderOk(Next(w, step), p, o) && CallKnown(Next(w, step), p, o) {
      NextHolder(w, step, p, o);
      NextCall(w, step, p, o);
    }
    forall o ensures OrderOk(Next(w, step).sent, Next(w, step).disk, Next(w, step).remote, o) {
      NextOrder(w, step, o);
    }
  }

  lemma {:induction false} RunInv(steps: seq<Step>)
    requires SharedRun(Empty, steps)
    ensures Inv(Exec(Empty, steps))
  {
    if steps != [] {
      RunInv(steps[..|steps| - 1]);
      NextInv(Exec(Empty, steps[..|steps| - 1]), steps[|steps| - 1]);
    }
  }

  /** Any number of processes, as long as they share the ledger, send at most one deploy hash for an order. */
  lemma PayOnceShared(steps: seq<Step>, o: OrderId)
    requires SharedRun(Empty, steps)
    ensures AtMostOneSent(Exec(Empty, steps).sent, o)
  {
    RunInv(steps);
    assert OrderOk(Exec(Empty, steps).sent, Exec(Empty, steps).disk, Exec(Empty, steps).remote, o);
  }

  /** Until the order is delivered, what was sent for it can be read back from disk, whatever crashed meanwhile. */
  lemma SentIsOnDisk(steps: seq<Step>, o: OrderId, h: Hash)
    requires SharedRun(Empty, steps) && h in SentFor(Exec(Empty, steps).sent, o)
    requires !Delivered(Exec(Empty, steps).remote, o)
    ensures Entry(Exec(Empty, steps).disk, o) == Some(h)
  {
    RunInv(steps);
    assert OrderOk(Exec(Empty, steps).sent, Exec(Empty, steps).disk, Exec(Empty, steps).remote, o);
  }

  // ---- Processes that do not overlap share -------------------------------------------------------------------------

  /** The map is the file once read, and a call past its lookup has read it. */
  predicate ProcSync(q: Proc, disk: map<OrderId, Hash>) {
    && q.memory == (if q.hydrated then disk else map[])
    && (forall o :: o in q.calls && (Inside(q.calls[o]) || q.calls[o].Verifying?) ==> q.hydrated)
  }

  predicate Sync(w: World) {
    && (forall p, p' :: p in w.procs && p' in w.procs ==> p == p')
    && (forall p :: p in w.procs ==> ProcSync(w.procs[p], w.disk))
  }

  /** A lone process shares the ledger with whoever comes before and after it. */
  lemma SyncShares(w: World, step: Step)
    requires Sync(w)
    ensures Shares(w, step)
  {
    assert (step.DoAcquire? || step.DoRecord? || step.DoVerifySucceeds?) && step.pid in w.procs ==>
        ProcSync(w.procs[step.pid], w.disk);
  }

  lemma LedgerStepSync(w: World, step: Step)
    requires Sync(w) && WritesLedger(step) && step.pid in w.procs
    ensures ProcSync(Next(w, step).procs[step.pid], Next(w, step).disk)
  {
    assert ProcSync(w.procs[step.pid], w.disk);
    assert map[] + w.disk == w.disk;
  }

  /** The other steps leave the file and every map of it alone, and take no call past its lookup. */
  lemma QuietStep(w: World, step: Step, p: Pid)
    requires !WritesLedger(step) && p in w.procs && p in Next(w, step).procs
    ensures Next(w, step).disk == w.disk
    ensures Next(w, step).procs[p].hydrated == w.procs[p].hydrated && Next(w, step).procs[p].memory == w.procs[p].memory
  {
    hide CallStep;
  }

  lemma QuietPhase(w: World, step: Step, p: Pid, o: OrderId)
    requires !WritesLedger(step) && InPhase(Next(w, step), p, o)
    requires Inside(PhaseOf(Next(w, step), p, o)) || PhaseOf(Next(w, step), p, o).Verifying?
    ensures InPhase(w, p, o) && (Inside(PhaseOf(w, p, o)) || PhaseOf(w, p, o).Verifying?)
  {
    if !Acts(step, p, o) { OtherCallsStay(w, step, p, o); }
  }

  lemma QuietStepSync(w: World, step: Step, p: Pid)
    requires Sync(w) && !WritesLedger(step) && p in w.procs && p in Next(w, step).procs
    ensures ProcSync(Next(w, step).procs[p], Next(w, step).disk)
  {
    hide CallStep;
    assert ProcSync(w.procs[p], w.disk);
    QuietStep(w, step, p);
    var q := Next(w, step).procs[p];
    forall o | o in q.calls && (Inside(q.calls[o]) || q.calls[o].Verifying?)
      ensures w.procs[p].hydrated
    {
      QuietPhase(w, step, p, o);
    }
  }

  lemma ProcessesKept(w: World, step: Step)
    requires NonOverlapping(w, step)
    ensures step.StartProcess? || Next(w, step).procs.Keys <= w.procs.Keys
    ensures step.StartProcess? && w.procs == map[] ==> Next(w, step).procs == map[step.pid := Proc(false, map[], map[])]
  {}

  lemma NextSync(w: World, step: Step)
    requires Sync(w) && NonOverlapping(w, step)
    ensures Sync(Next(w, step))
  {
    ProcessesKept(w, step);
    if !step.StartProcess? {
      forall p | p in Next(w, step).procs ensures p in w.procs && ProcSync(Next(w, step).procs[p], Next(w, step).disk) {
        assert p in Next(w, step).procs.Keys;
        if !WritesLedger(step) {
          QuietStepSync(w, step, p);
        } else if step.pid in w.procs {
          LedgerStepSync(w, step);
        }
      }
    }
  }

  lemma {:induction false} NonOverlappingShare(steps: seq<Step>)
    requires Run(Empty, steps)
    ensures SharedRun(Empty, steps) && Sync(Exec(Empty, steps))
  {
    if steps != [] {
      NonOverlappingShare(steps[..|steps| - 1]);
      SyncShares(Exec(Empty, steps[..|steps| - 1]), steps[|steps| - 1]);
      NextSync(Exec(Empty, steps[..|steps| - 1]), steps[|steps| - 1]);
    }
  }

  /**
   * Over every sequence of pay calls, verify failures, crashes and restarts of processes that do not overlap,
   * at most one deploy hash is ever sent for an order.
   */
  lemma PayOnceOverRuns(steps: seq<Step>, o: OrderId)
    requires Run(Empty, steps)
    ensures AtMostOneSent(Exec(Empty, steps).sent, o)
  {
    NonOverlappingShare(steps);
    PayOnceShared(steps, o);
  }
}
