/** The invariant every reachable state keeps, and the status edges a step can take. */
module OrderInvariant {
  import opened Common
  import opened Policy
  import opened Orders

  /** Statuses of an order the CTX pipeline has not touched. */
  predicate Early(status: Status) { status in {AwaitingApproval, PendingPayment, Expired, Rejected} }

  predicate Untouched(r: Order) {
    && r.vccJob.None? && !r.xlmSent && r.ctxTx.None? && !r.vccNotified && r.attempt == 0
    && r.refundTx.None? && r.world.ctxSends == 0 && !r.world.notifySent
  }

  predicate RowOk(r: Order) {
    && MinAmount <= r.amount <= MaxAmount
    && (Early(r.status) ==> Untouched(r))
    && r.attempt <= MaxAttempts
    && r.world.ctxSends <= 1
    && (r.status in {RefundPending, Refunded} ==> r.world.ctxSends == 0)
    && r.world.refundSends <= 1
    && (r.world.refundSends == 1 ==> r.status in {RefundPending, Refunded})
    && r.world.claims == (if r.status == Delivered then 1 else 0)
    && (r.status == Delivered ==> r.card.Some?)
    && (r.deployHash.Some? ==> r.status == Delivered)
    && (r.world.notifySent ==> r.xlmSent && r.vccJob.Some?)
    && (r.ctxTx.Some? ==> r.world.ctxSends == 1)
  }

  /** The CTX payment of order `i` is on its way and not yet recorded. */
  predicate Sending(job: Job, i: OrderId) { job.Pass? && job.at.Send? && job.at.id == i }

  /** A selected row still describes its order: only the job itself writes these columns. */
  predicate Agrees(row: Order, r: Order) {
    row.ctxTx.None? && r.ctxTx.None? && row.xlmSent == r.xlmSent && row.vccJob == r.vccJob
  }

  predicate TaskOk(orders: seq<Order>, t: Task) {
    && t.id < |orders|
    && !Early(orders[t.id].status)
    && (t.Reconcile? ==> Agrees(t.row, orders[t.id]))
  }

  predicate Unsent(r: Order) { r.status == Ordering && !r.xlmSent && r.ctxTx.None? }

  predicate AtOk(orders: seq<Order>, at: At) {
    match at
    case Ready => true
    case HardFailPoll(i) => i < |orders| && !Early(orders[i].status)
    case Invoice(i, row) => i < |orders| && orders[i].status == Ordering && Agrees(row, orders[i]) && row.vccJob.None?
    case JobPoll(i, row) => i < |orders| && Unsent(orders[i]) && !row.xlmSent && orders[i].vccJob.Some?
    case Send(i, row) =>
      i < |orders| && Unsent(orders[i]) && !row.xlmSent && orders[i].vccJob.Some? && orders[i].world.ctxSends == 1
    case Notify(i) => i < |orders| && !Early(orders[i].status) && orders[i].world.notifySent
    case RecoverPoll(i, row) => i < |orders| && !Early(orders[i].status)
  }

  predicate TodoOk(orders: seq<Order>, todo: seq<Task>) {
    && (forall j :: 0 <= j < |todo| ==> TaskOk(orders, todo[j]))
    && (forall j, k :: 0 <= j < k < |todo| ==> todo[j].id != todo[k].id)
  }

  predicate NotQueued(todo: seq<Task>, i: OrderId) { forall j :: 0 <= j < |todo| ==> todo[j].id != i }

  predicate JobOk(orders: seq<Order>, job: Job) {
    job.Pass? ==>
      && AtOk(orders, job.at)
      && TodoOk(orders, job.todo)
      && (job.at.Ready? || NotQueued(job.todo, job.at.id))
  }

  predicate RowsOk(orders: seq<Order>) { forall i :: 0 <= i < |orders| ==> RowOk(orders[i]) }

  predicate KeysKnown(orders: seq<Order>, keys: seq<Key>) { forall i :: 0 <= i < |orders| ==> orders[i].key < |keys| }

  predicate CreatedBy(orders: seq<Order>, now: nat) { forall i :: 0 <= i < |orders| ==> orders[i].createdAt <= now }

  /** A payment that may have landed is recorded, unless its send is the one in flight. */
  predicate PaymentsRecorded(orders: seq<Order>, job: Job) {
    forall i :: 0 <= i < |orders| && orders[i].world.ctxSends == 1 && orders[i].ctxTx.None? ==> Sending(job, i)
  }

  /** The deploy-hash-to-order map is injective. */
  predicate HashesDistinct(orders: seq<Order>) {
    forall i, j :: 0 <= i < j < |orders| && orders[i].deployHash.Some? ==> orders[i].deployHash != orders[j].deployHash
  }

  predicate RefundsOk(orders: seq<Order>, refunding: set<OrderId>) {
    forall i :: i in refunding ==>
      i < |orders| && orders[i].status == RefundPending && orders[i].world.refundSends == 1
  }

  /** The approval is pending exactly when its order awaits approval. */
  predicate Coupled(orders: seq<Order>, a: Approval) {
    a.order < |orders| && (a.status == ApprovalPending <==> orders[a.order].status == AwaitingApproval)
  }

  predicate ApprovalsCoupled(orders: seq<Order>, approvals: seq<Approval>) {
    forall a :: 0 <= a < |approvals| ==> Coupled(orders, approvals[a])
  }

  predicate OneApprovalEach(approvals: seq<Approval>) {
    forall a, b :: 0 <= a < b < |approvals| ==> approvals[a].order != approvals[b].order
  }

  predicate HasApproval(approvals: seq<Approval>, i: OrderId) {
    exists a :: 0 <= a < |approvals| && approvals[a].order == i
  }

  predicate AwaitingHaveApprovals(orders: seq<Order>, approvals: seq<Approval>) {
    forall i :: 0 <= i < |orders| && orders[i].status == AwaitingApproval ==> HasApproval(approvals, i)
  }

  predicate SameRules(a: Key, b: Key) { a.(settled := 0, suspended := false) == b.(settled := 0, suspended := false) }

  /** A waiting POST holds a snapshot of a key with today's rules and no more spend than today's. */
  predicate RequestOk(req: CreateRequest, keys: seq<Key>) {
    && req.key < |keys| && MinAmount <= req.amount <= MaxAmount
    && SameRules(req.snapshot, keys[req.key]) && req.snapshot.settled <= keys[req.key].settled
  }

  predicate RequestsOk(creating: map<nat, CreateRequest>, keys: seq<Key>) {
    forall rid :: rid in creating ==> RequestOk(creating[rid], keys)
  }

  predicate Inv(s: State) {
    && RowsOk(s.orders) && KeysKnown(s.orders, s.keys) && CreatedBy(s.orders, s.now)
    && PaymentsRecorded(s.orders, s.job) && HashesDistinct(s.orders) && RefundsOk(s.orders, s.refunding)
    && ApprovalsCoupled(s.orders, s.approvals) && OneApprovalEach(s.approvals)
    && AwaitingHaveApprovals(s.orders, s.approvals)
    && JobOk(s.orders, s.job) && RequestsOk(s.creating, s.keys)
  }

  lemma InvFresh(s: State)
    requires Fresh(s)
    ensures Inv(s)
  {}

  // ---- The status graph ------------------------------------------------------------------------------

  predicate StatusEdge(a: Status, b: Status) {
    match a
    case AwaitingApproval => b in {PendingPayment, Rejected}
    case PendingPayment => b in {Expired, Ordering, Delivered}
    case Ordering => b in {Delivered, Failed, RefundPending, PendingManualRecovery}
    case RefundPending => b == Refunded
    case _ => false
  }

  /** One step's effect on one existing row. */
  predicate Edge(r: Order, r': Order) {
    && r'.key == r.key && r'.amount == r.amount && r'.createdAt == r.createdAt
    && (r'.status == r.status || StatusEdge(r.status, r'.status))
    && (r.status == Delivered ==> r'.card == r.card && r'.deployHash == r.deployHash)
    && (r.ctxTx.Some? ==> r'.ctxTx == r.ctxTx)
    && r'.world.refundSends >= r.world.refundSends
    && r'.world.claims >= r.world.claims
  }

  predicate Edges(orders: seq<Order>, orders': seq<Order>) {
    && |orders'| >= |orders|
    && (forall i :: 0 <= i < |orders| ==> Edge(orders[i], orders'[i]))
  }

  /** Keys keep their rules; only spend and the suspended flag move, and spend only up. */
  predicate KeysOk(keys: seq<Key>, keys': seq<Key>) {
    && |keys'| == |keys|
    && (forall k :: 0 <= k < |keys| ==> SameRules(keys[k], keys'[k]) && keys[k].settled <= keys'[k].settled)
  }

  /** A refund send only ever starts on an order that was `ordering`. */
  predicate RefundsFromOrdering(s: State, s': State) {
    forall i :: i in s'.refunding ==> i in s.refunding || (i < |s.orders| && s.orders[i].status == Ordering)
  }

  /** A decided approval never changes again. */
  predicate DecidedStay(approvals: seq<Approval>, approvals': seq<Approval>) {
    && |approvals'| >= |approvals|
    && (forall a :: 0 <= a < |approvals| && approvals[a].status != ApprovalPending ==> approvals'[a] == approvals[a])
  }

  predicate Good(s: State, s': State) {
    && Inv(s') && Edges(s.orders, s'.orders) && KeysOk(s.keys, s'.keys)
    && RefundsFromOrdering(s, s') && DecidedStay(s.approvals, s'.approvals)
  }

  /** No row is added, none turns delivered, and the keys stay as they are. */
  predicate Quiet(s: State, s': State) {
    && s'.keys == s.keys
    && |s'.orders| == |s.orders|
    && (forall i :: 0 <= i < |s.orders| && s'.orders[i].status == Delivered ==> s.orders[i].status == Delivered)
  }

  predicate QuietGood(s: State, s': State) { Good(s, s') && Quiet(s, s') }

  // ---- Writing one row ---------------------------------------------------------------------------------

  /** What a write of row `i` must respect for the tables to stay consistent; the job is looked at apart. */
  predicate RowWrite(s: State, i: OrderId, r': Order) {
    && i < |s.orders|
    && RowOk(r') && Edge(s.orders[i], r')
    && (s.orders[i].status == AwaitingApproval <==> r'.status == AwaitingApproval)
    && (r'.deployHash == s.orders[i].deployHash
        || (r'.deployHash.Some? && !HashTaken(s.orders, i, r'.deployHash.value)))
    && (i in s.refunding ==> r'.status == RefundPending && r'.world.refundSends == 1)
  }

  lemma HashesKept(orders: seq<Order>, i: OrderId, r': Order)
    requires i < |orders| && HashesDistinct(orders)
    requires r'.deployHash == orders[i].deployHash
             || (r'.deployHash.Some? && !HashTaken(orders, i, r'.deployHash.value))
    ensures HashesDistinct(orders[i := r'])
  {}

  lemma ApprovalsKept(orders: seq<Order>, approvals: seq<Approval>, i: OrderId, r': Order)
    requires i < |orders| && (orders[i].status == AwaitingApproval <==> r'.status == AwaitingApproval)
    requires ApprovalsCoupled(orders, approvals) && AwaitingHaveApprovals(orders, approvals)
    ensures ApprovalsCoupled(orders[i := r'], approvals) && AwaitingHaveApprovals(orders[i := r'], approvals)
  {
    forall a | 0 <= a < |approvals| ensures Coupled(orders[i := r'], approvals[a]) {
      assert Coupled(orders, approvals[a]);
    }
  }

  /** The write keeps everything but what the job's own position says, which is left to the caller. */
  lemma RowWriteGood(s: State, i: OrderId, r': Order, job': Job)
    requires Inv(s) && RowWrite(s, i, r')
    requires JobOk(s.orders[i := r'], job') && PaymentsRecorded(s.orders[i := r'], job')
    ensures Good(s, s.(orders := s.orders[i := r'], job := job'))
    ensures r'.status != Delivered || s.orders[i].status == Delivered ==>
            Quiet(s, s.(orders := s.orders[i := r'], job := job'))
  {
    HashesKept(s.orders, i, r');
    ApprovalsKept(s.orders, s.approvals, i, r');
  }

  /** Columns the job relies on. */
  predicate JobColumnsSame(r: Order, r': Order) {
    && r'.ctxTx == r.ctxTx && r'.xlmSent == r.xlmSent && r'.vccJob == r.vccJob
    && r'.world.ctxSends == r.world.ctxSends && r'.world.notifySent == r.world.notifySent
  }

  /** The job has claimed order `i` for a payment it has not recorded yet. */
  predicate AtUnsent(job: Job, i: OrderId) {
    job.Pass? && (job.at.Invoice? || job.at.JobPoll? || job.at.Send?) && job.at.id == i
  }

  lemma NotifiedNotAtUnsent(s: State, i: OrderId)
    requires Inv(s) && i < |s.orders| && (s.orders[i].world.notifySent || s.orders[i].status != Ordering)
    ensures !AtUnsent(s.job, i)
  {
    assert RowOk(s.orders[i]);
    assert s.job.Pass? ==> AtOk(s.orders, s.job.at);
  }

  /** A row may be written, whatever the job waits for, if the job's columns stay and it is not about to pay. */
  lemma OutsideWriteGood(s: State, i: OrderId, r': Order)
    requires Inv(s) && RowWrite(s, i, r')
    requires JobColumnsSame(s.orders[i], r') && !AtUnsent(s.job, i)
    requires Early(s.orders[i].status) || !Early(r'.status)
    ensures Good(s, SetRow(s, i, r'))
    ensures r'.status != Delivered || s.orders[i].status == Delivered ==> Quiet(s, SetRow(s, i, r'))
  {
    if s.job.Pass? {
      forall j | 0 <= j < |s.job.todo| ensures TaskOk(s.orders[i := r'], s.job.todo[j]) {
        assert TaskOk(s.orders, s.job.todo[j]);
      }
      assert AtOk(s.orders, s.job.at);
    }
    forall j | 0 <= j < |s.orders| && s.orders[i := r'][j].world.ctxSends == 1 && s.orders[i := r'][j].ctxTx.None?
      ensures Sending(s.job, j)
    {
      assert s.orders[j].world.ctxSends == 1 && s.orders[j].ctxTx.None?;
    }
    RowWriteGood(s, i, r', s.job);
  }

  lemma SettleGood(s: State, k: KeyId, amount: nat)
    requires Inv(s)
    ensures Good(s, Settle(s, k, amount))
  {
    hide RowsOk, PaymentsRecorded, HashesDistinct, RefundsOk, ApprovalsCoupled, AwaitingHaveApprovals, JobOk;
    var s' := Settle(s, k, amount);
    forall rid | rid in s'.creating ensures RequestOk(s'.creating[rid], s'.keys) {
      assert RequestOk(s.creating[rid], s.keys);
    }
  }

  /** Delivering is one row write and one settlement. */
  lemma DeliverGood(s: State, i: OrderId, card: Card, hash: Option<Hash>)
    requires Inv(s) && i < |s.orders|
    requires s.orders[i].status in {PendingPayment, Ordering} && !AtUnsent(s.job, i)
    requires s.orders[i].status == Ordering ==> s.orders[i].ctxTx.Some? || s.orders[i].world.ctxSends == 0
    requires hash == s.orders[i].deployHash || (hash.Some? && !HashTaken(s.orders, i, hash.value))
    ensures Good(s, Deliver(s, i, card, hash))
  {
    var r := s.orders[i];
    assert RowOk(r);
    var r' := r.(status := Delivered, card := Some(card), deployHash := hash,
        world := r.world.(claims := r.world.claims + 1));
    OutsideWriteGood(s, i, r');
    SettleGood(SetRow(s, i, r'), r.key, r.amount);
  }

  lemma RefundRowGood(s: State, i: OrderId)
    requires Inv(s) && i < |s.orders| && s.orders[i].status == Ordering && !AtUnsent(s.job, i)
             && s.orders[i].ctxTx.None?
    ensures QuietGood(s, SetRow(s, i, RefundRow(s.orders[i])))
    ensures s.orders[i].refundable ==> RowOk(RefundRow(s.orders[i])) && RefundRow(s.orders[i]).world.refundSends == 1
  {
    assert RowOk(s.orders[i]);
    OutsideWriteGood(s, i, RefundRow(s.orders[i]));
  }

  lemma RefundStartGood(s: State, i: OrderId)
    requires Inv(s) && i < |s.orders| && s.orders[i].status == RefundPending && s.orders[i].world.refundSends == 1
    ensures Inv(s.(refunding := s.refunding + {i}))
  {}

  /** The failure paths: the guarded write followed, in the same stretch, by refund or quarantine. */
  lemma FailGood(s: State, i: OrderId, target: Status, frozen: bool)
    requires Inv(s) && i < |s.orders| && s.orders[i].status == Ordering && !AtUnsent(s.job, i)
    requires target in {Failed, PendingManualRecovery}
    ensures QuietGood(s, RefundOrQuarantine(SetRow(s, i, s.orders[i].(status := target)), i, frozen))
  {
    var r := s.orders[i];
    var s' := RefundOrQuarantine(SetRow(s, i, r.(status := target)), i, frozen);
    if r.ctxTx.Some? || frozen {
      assert s' == SetRow(s, i, r.(status := target));
      assert RowOk(r);
      OutsideWriteGood(s, i, r.(status := target));
    } else {
      var s1 := SetRow(s, i, RefundRow(r));
      assert s.orders[i := r.(status := target)][i := RefundRow(r)] == s1.orders;
      assert s' == if r.refundable then s1.(refunding := s.refunding + {i}) else s1;
      RefundRowGood(s, i);
      if r.refundable { RefundStartGood(s1, i); }
    }
  }

  // ---- POST /orders and approvals ----------------------------------------------------------------------

  lemma JobKeptByAppend(orders: seq<Order>, job: Job, r: Order)
    requires JobOk(orders, job) && PaymentsRecorded(orders, job) && r.world.ctxSends == 0
    ensures JobOk(orders + [r], job) && PaymentsRecorded(orders + [r], job)
  {
    if job.Pass? {
      forall j | 0 <= j < |job.todo| ensures TaskOk(orders + [r], job.todo[j]) { assert TaskOk(orders, job.todo[j]); }
      assert AtOk(orders, job.at);
    }
  }

  lemma ApprovalsKeptByAppend(orders: seq<Order>, approvals: seq<Approval>, r: Order)
    requires ApprovalsCoupled(orders, approvals)
    ensures ApprovalsCoupled(orders + [r], approvals)
  {
    forall a | 0 <= a < |approvals| ensures Coupled(orders + [r], approvals[a]) {
      assert Coupled(orders, approvals[a]);
    }
  }

  lemma AppendGood(s: State, r: Order, creating: map<nat, CreateRequest>)
    requires Inv(s) && RowOk(r) && r.key < |s.keys| && r.createdAt <= s.now && r.deployHash.None?
             && r.world.ctxSends == 0
    requires r.status == PendingPayment && RequestsOk(creating, s.keys)
    ensures Good(s, s.(orders := s.orders + [r], creating := creating))
  {
    JobKeptByAppend(s.orders, s.job, r);
    ApprovalsKeptByAppend(s.orders, s.approvals, r);
  }

  lemma AppendAwaitingGood(s: State, r: Order, ap: Approval, creating: map<nat, CreateRequest>)
    requires Inv(s) && RowOk(r) && r.key < |s.keys| && r.createdAt <= s.now && r.deployHash.None?
             && r.world.ctxSends == 0
    requires r.status == AwaitingApproval && RequestsOk(creating, s.keys)
    requires ap.order == |s.orders| && ap.status == ApprovalPending
    ensures Good(s, s.(orders := s.orders + [r], approvals := s.approvals + [ap], creating := creating))
  {
    JobKeptByAppend(s.orders, s.job, r);
    ApprovalsKeptByAppend(s.orders, s.approvals, r);
    var orders, approvals := s.orders + [r], s.approvals + [ap];
    forall a | 0 <= a < |approvals| ensures Coupled(orders, approvals[a]) {
      if a < |s.approvals| { assert Coupled(orders, s.approvals[a]); }
    }
    forall a, b | 0 <= a < b < |approvals| ensures approvals[a].order != approvals[b].order {
      assert Coupled(s.orders, s.approvals[a]);
    }
    forall i | 0 <= i < |orders| && orders[i].status == AwaitingApproval ensures HasApproval(approvals, i) {
      if i < |s.orders| {
        assert HasApproval(s.approvals, i);
        var a :| 0 <= a < |s.approvals| && s.approvals[a].order == i;
        assert approvals[a].order == i;
      } else {
        assert approvals[|s.approvals|].order == i;
      }
    }
  }

  lemma CreateGood(s: State, rid: nat, payBy: Option<nat>, refundable: bool, builds: bool)
    requires Inv(s)
    ensures Good(s, CommitCreate(s, rid, payBy, refundable, builds))
  {
    if rid in s.creating {
      var req, rest := s.creating[rid], s.creating - {rid};
      var s' := CommitCreate(s, rid, payBy, refundable, builds);
      assert RequestOk(req, s.keys) && RequestsOk(rest, s.keys);
      match CreateDecision(s, rid, builds)
      case AwaitsApproval =>
        var r := NewRow(s, req, AwaitingApproval, None, refundable);
        var ap := Approval(req.key, |s.orders|, req.amount, s.now + ApprovalTtl, ApprovalPending);
        assert s' == s.(orders := s.orders + [r], approvals := s.approvals + [ap], creating := rest);
        AppendAwaitingGood(s, r, ap, rest);
      case Payable =>
        var r := NewRow(s, req, PendingPayment, payBy, refundable);
        assert s' == s.(orders := s.orders + [r], creating := rest);
        AppendGood(s, r, rest);
      case _ => assert s' == s.(creating := rest);
    }
  }

  /** The coupling when an approval is decided and its order leaves `awaiting_approval` in the same stretch. */
  lemma DecideCoupled(orders: seq<Order>, approvals: seq<Approval>, a: nat, decision: ApprovalStatus, r': Order)
    requires a < |approvals| && approvals[a].status == ApprovalPending && decision != ApprovalPending
    requires approvals[a].order < |orders| && r'.status != AwaitingApproval
    requires ApprovalsCoupled(orders, approvals) && OneApprovalEach(approvals)
             && AwaitingHaveApprovals(orders, approvals)
    ensures var orders' := orders[approvals[a].order := r'];
            var approvals' := approvals[a := approvals[a].(status := decision)];
            && ApprovalsCoupled(orders', approvals') && OneApprovalEach(approvals')
            && AwaitingHaveApprovals(orders', approvals') && DecidedStay(approvals, approvals')
  {
    var i := approvals[a].order;
    var orders', approvals' := orders[i := r'], approvals[a := approvals[a].(status := decision)];
    forall b | 0 <= b < |approvals| ensures Coupled(orders', approvals'[b]) {
      assert Coupled(orders, approvals[b]);
      if b != a { assert approvals[b].order != i; }
    }
    forall j | 0 <= j < |orders'| && orders'[j].status == AwaitingApproval ensures HasApproval(approvals', j) {
      assert HasApproval(approvals, j);
      var b :| 0 <= b < |approvals| && approvals[b].order == j;
      assert approvals'[b].order == j;
    }
  }

  lemma DecideGood(s: State, a: nat, decision: ApprovalStatus, r': Order)
    requires Inv(s) && a < |s.approvals| && s.approvals[a].status == ApprovalPending && decision != ApprovalPending
    requires s.approvals[a].order < |s.orders|
    requires RowOk(r') && Early(r'.status) && r'.status != AwaitingApproval && r'.deployHash.None?
    requires Edge(s.orders[s.approvals[a].order], r') && JobColumnsSame(s.orders[s.approvals[a].order], r')
    ensures QuietGood(s, SetRow(SetApproval(s, a, decision), s.approvals[a].order, r'))
  {
    hide ApprovalsCoupled, OneApprovalEach, AwaitingHaveApprovals, JobOk, PaymentsRecorded, DecidedStay, HashesDistinct;
    var i := s.approvals[a].order;
    DecideCoupled(s.orders, s.approvals, a, decision, r');
    PendingIsAwaiting(s, a);
    DecideJobGood(s, i, r');
    HashesKept(s.orders, i, r');
  }

  lemma PendingIsAwaiting(s: State, a: nat)
    requires Inv(s) && a < |s.approvals| && s.approvals[a].status == ApprovalPending
    ensures s.approvals[a].order < |s.orders|
    ensures var r := s.orders[s.approvals[a].order];
            r.status == AwaitingApproval && RowOk(r) && s.approvals[a].order !in s.refunding
  {
    assert Coupled(s.orders, s.approvals[a]);
    assert RowOk(s.orders[s.approvals[a].order]);
  }

  lemma DecideJobGood(s: State, i: OrderId, r': Order)
    requires Inv(s) && i < |s.orders| && Early(s.orders[i].status) && JobColumnsSame(s.orders[i], r')
    ensures JobOk(s.orders[i := r'], s.job) && PaymentsRecorded(s.orders[i := r'], s.job)
  {
    assert RowOk(s.orders[i]);
    if s.job.Pass? {
      forall j | 0 <= j < |s.job.todo| ensures TaskOk(s.orders[i := r'], s.job.todo[j]) {
        assert TaskOk(s.orders, s.job.todo[j]);
      }
      assert AtOk(s.orders, s.job.at);
    }
  }

  lemma ApprovalStepGood(s: State, step: Step)
    requires Inv(s)
    requires step.DoApprove? || step.DoReject? || step.DoExpireApproval? || step.DoSuspendRound?
    ensures QuietGood(s, Next(s, step))
  {
    var a := step.approval;
    if a < |s.approvals| && s.approvals[a].status == ApprovalPending {
      hide Inv;
      PendingIsAwaiting(s, a);
      var r := s.orders[s.approvals[a].order];
      var decision :=
        if step.DoApprove? then ApprovalApproved
        else if step.DoExpireApproval? then ApprovalExpired else ApprovalRejected;
      var r' := if step.DoApprove? then r.(status := PendingPayment, payBy := step.payBy) else r.(status := Rejected);
      assert Next(s, step) in {s, SetRow(SetApproval(s, a, decision), s.approvals[a].order, r')};
      DecideGood(s, a, decision, r');
    }
  }

  // ---- The other outside steps ---------------------------------------------------------------------------

  lemma LeavePendingGood(s: State, i: OrderId, status: Status)
    requires Inv(s) && i < |s.orders| && s.orders[i].status == PendingPayment && status in {Expired, Ordering}
    ensures QuietGood(s, SetRow(s, i, s.orders[i].(status := status)))
  {
    assert RowOk(s.orders[i]);
    NotifiedNotAtUnsent(s, i);
    OutsideWriteGood(s, i, s.orders[i].(status := status));
  }

  lemma ExpireStaleGood(s: State, i: OrderId)
    requires Inv(s)
    ensures QuietGood(s, ExpireStale(s, i))
  {
    if i < |s.orders| && s.orders[i].status == PendingPayment { LeavePendingGood(s, i, Expired); }
  }

  lemma EnterOrderingGood(s: State, i: OrderId)
    requires Inv(s)
    ensures QuietGood(s, EnterOrdering(s, i))
  {
    if i < |s.orders| && s.orders[i].status == PendingPayment { LeavePendingGood(s, i, Ordering); }
  }

  lemma VerifyBeginGood(s: State, vid: nat, i: OrderId, hash: Hash, checksPass: bool)
    requires Inv(s)
    ensures QuietGood(s, VerifyBegin(s, vid, i, hash, checksPass))
  {
    if i < |s.orders| && s.orders[i].status == PendingPayment { LeavePendingGood(s, i, Expired); }
  }

  lemma VerifyReplyGood(s: State, vid: nat, node: NodeReply)
    requires Inv(s)
    ensures Good(s, VerifyReplied(s, vid, node))
  {
    if vid in s.verifying && node.Verified? && s.verifying[vid].order < |s.orders| {
      var req := s.verifying[vid];
      var s1 := s.(verifying := s.verifying - {vid});
      if s.orders[req.order].status == PendingPayment && !HashTaken(s.orders, req.order, req.hash) {
        NotifiedNotAtUnsent(s1, req.order);
        DeliverGood(s1, req.order, node.card, Some(req.hash));
      }
    }
  }

  lemma CallbackGood(s: State, i: OrderId, result: VccResult, frozen: bool)
    requires Inv(s) && VccAfterNotify(s, DoCallback(i, result, frozen))
    ensures Good(s, Callback(s, i, result, frozen))
    ensures result.VccFailed? ==> Quiet(s, Callback(s, i, result, frozen))
  {
    if i < |s.orders| && s.orders[i].status !in Terminal {
      var r := s.orders[i];
      assert RowOk(r);
      NotifiedNotAtUnsent(s, i);
      assert r.status == Ordering;
      match result
      case Fulfilled(card) =>
        assert r.ctxTx.None? && r.world.ctxSends == 1 ==> Sending(s.job, i);
        DeliverGood(s, i, card, r.deployHash);
      case VccFailed => FailGood(s, i, if r.ctxTx.Some? then PendingManualRecovery else Failed, frozen);
    }
  }

  lemma RefundEnded(s: State, i: OrderId)
    requires Inv(s) && i in s.refunding
    ensures var s1 := s.(refunding := s.refunding - {i}); QuietGood(s, s1) && !AtUnsent(s1.job, i)
    ensures i < |s.orders| && s.orders[i].status == RefundPending && RowOk(s.orders[i])
  {
    assert RowOk(s.orders[i]);
    NotifiedNotAtUnsent(s, i);
  }

  lemma RefundReplyGood(s: State, i: OrderId, reply: RefundReply)
    requires Inv(s)
    ensures QuietGood(s, RefundReplied(s, i, reply))
  {
    hide Inv;
    if i in s.refunding {
      RefundEnded(s, i);
      var s1, r := s.(refunding := s.refunding - {i}), s.orders[i];
      match reply
      case RefundLanded(tx) => OutsideWriteGood(s1, i, r.(status := Refunded, refundTx := Some(tx)));
      case RefundFailed(None) =>
      case RefundFailed(Some(tx)) =>
        OutsideWriteGood(s1, i, r.(refundTx := if r.refundTx.Some? then r.refundTx else Some(tx)));
    }
  }

  // ---- The job's own steps --------------------------------------------------------------------------------

  /** What the invariant says of the row the job is at. */
  lemma JobIsAt(s: State)
    requires Inv(s) && s.job.Pass?
    ensures AtOk(s.orders, s.job.at) && RowsOk(s.orders) && RefundsOk(s.orders, s.refunding)
    ensures s.job.at.Ready? || NotQueued(s.job.todo, s.job.at.id)
  {}

  /** The job writes the row it is working on and moves to its next await. */
  lemma JobWriteGood(s: State, i: OrderId, r': Order, at: At)
    requires Inv(s) && RowWrite(s, i, r') && s.job.Pass?
    requires NotQueued(s.job.todo, i) && (s.job.at.Send? ==> s.job.at.id == i)
    requires AtOk(s.orders[i := r'], at) && (!at.Ready? ==> at.id == i)
    requires r'.world.ctxSends == 1 && r'.ctxTx.None? ==> at.Send?
    requires r'.status == Delivered ==> s.orders[i].status == Delivered
    ensures QuietGood(s, MoveTo(SetRow(s, i, r'), at))
  {
    forall j | 0 <= j < |s.job.todo| ensures TaskOk(s.orders[i := r'], s.job.todo[j]) {
      assert TaskOk(s.orders, s.job.todo[j]);
    }
    RowWriteGood(s, i, r', s.job.(at := at));
  }

  /** The job goes on without writing; a send in flight must not be left behind. */
  lemma MoveGood(s: State, at: At)
    requires Inv(s) && s.job.Pass? && !s.job.at.Send?
    requires AtOk(s.orders, at) && (!at.Ready? ==> NotQueued(s.job.todo, at.id))
    ensures QuietGood(s, MoveTo(s, at))
  {}

  lemma StartNotifyGood(s: State, i: OrderId, row: Order, r: Order)
    requires Inv(s) && s.job.Pass? && i < |s.orders| && NotQueued(s.job.todo, i)
    requires s.job.at.Send? ==> s.job.at.id == i
    requires RowWrite(s, i, r) && r.xlmSent && r.vccJob.Some? && !Early(r.status)
    requires r.status == Delivered ==> s.orders[i].status == Delivered
    requires r.world.ctxSends == 1 ==> r.ctxTx.Some?
    ensures QuietGood(s, StartNotify(SetRow(s, i, r), i, row))
  {
    if row.vccNotified {
      JobWriteGood(s, i, r, Ready);
    } else {
      var r' := r.(world := r.world.(notifySent := true));
      JobWriteGood(s, i, r', Notify(i));
      assert s.orders[i := r][i := r'] == s.orders[i := r'];
    }
  }

  lemma StartSendGood(s: State, i: OrderId, row: Order, r: Order)
    requires Inv(s) && s.job.Pass? && i < |s.orders| && NotQueued(s.job.todo, i) && !s.job.at.Send?
    requires RowWrite(s, i, r) && Unsent(r) && !row.xlmSent && r.vccJob.Some? && r.world.ctxSends == 0
    ensures QuietGood(s, StartSend(SetRow(s, i, r), i, row))
  {
    var r' := r.(world := r.world.(ctxSends := 1));
    JobWriteGood(s, i, r', Send(i, row));
    assert s.orders[i := r][i := r'] == s.orders[i := r'];
  }

  /** From the claim on, with `r` the row after the writes of the stretch. */
  lemma AfterInvoiceGood(s: State, i: OrderId, row: Order, r: Order, hasUrl: bool)
    requires Inv(s) && s.job.Pass? && i < |s.orders| && NotQueued(s.job.todo, i) && !s.job.at.Send?
    requires RowWrite(s, i, r) && r.status == Ordering && r.vccJob.Some? && r.ctxTx.None? && r.world.ctxSends == 0
    requires row.xlmSent == r.xlmSent
    ensures QuietGood(s, AfterInvoice(SetRow(s, i, r), i, row, hasUrl))
  {
    if row.xlmSent {
      StartNotifyGood(s, i, row, r);
    } else if hasUrl {
      StartSendGood(s, i, row, r);
    } else {
      JobWriteGood(s, i, r, JobPoll(i, row));
    }
  }

  lemma StartPassGood(s: State, ids: seq<OrderId>, reconcile: bool)
    requires Inv(s)
    ensures QuietGood(s, StartPass(s, ids, reconcile))
  {
    if s.job.Idle? && Selects(s, ids, reconcile) {
      var todo := Tasks(s.orders, ids, reconcile);
      forall j | 0 <= j < |todo| ensures TaskOk(s.orders, todo[j]) { assert RowOk(s.orders[ids[j]]); }
    }
  }

  /** Taking the head of the list leaves a good state in which that row is not queued. */
  lemma PopGood(s: State)
    requires Inv(s) && s.job.Pass? && s.job.at.Ready? && s.job.todo != []
    ensures var s1 := s.(job := Pass(s.job.todo[1..], Ready));
            QuietGood(s, s1) && NotQueued(s1.job.todo, s.job.todo[0].id)
  {
    var todo := s.job.todo;
    forall j | 0 <= j < |todo[1..]| ensures TaskOk(s.orders, todo[1..][j]) && todo[1..][j].id != todo[0].id {
      assert TaskOk(s.orders, todo[j + 1]);
    }
  }

  lemma UnsentNow(s: State, i: OrderId)
    requires Inv(s) && i < |s.orders| && s.orders[i].ctxTx.None? && !Sending(s.job, i)
    ensures s.orders[i].world.ctxSends == 0
  {
    assert RowOk(s.orders[i]);
  }

  /** The claimed row may be written and its CTX payment has not been sent. */
  lemma ClaimedRow(s: State, i: OrderId, row: Order)
    requires Inv(s) && s.job.Pass? && s.job.at.Ready? && TaskOk(s.orders, Reconcile(i, row))
    requires s.orders[i].status == Ordering && s.orders[i].attempt < MaxAttempts
    ensures var r' := s.orders[i].(attempt := s.orders[i].attempt + 1); RowWrite(s, i, r') && r'.world.ctxSends == 0
  {
    assert RowOk(s.orders[i]);
    UnsentNow(s, i);
  }

  lemma ClaimGood(s: State, i: OrderId, row: Order)
    requires Inv(s) && s.job.Pass? && s.job.at.Ready? && NotQueued(s.job.todo, i)
    requires TaskOk(s.orders, Reconcile(i, row)) && row.attempt < MaxAttempts
    ensures QuietGood(s, ClaimAttempt(s, i, row))
  {
    hide Inv;
    if s.orders[i].status == Ordering && s.orders[i].attempt == row.attempt {
      ClaimedRow(s, i, row);
      var r' := s.orders[i].(attempt := s.orders[i].attempt + 1);
      if row.vccJob.None? {
        assert ClaimAttempt(s, i, row) == MoveTo(SetRow(s, i, r'), Invoice(i, row));
        JobWriteGood(s, i, r', Invoice(i, row));
      } else {
        assert ClaimAttempt(s, i, row) == AfterInvoice(SetRow(s, i, r'), i, row, false);
        AfterInvoiceGood(s, i, row, r', false);
      }
    }
  }

  lemma HardFailTaskGood(s: State, i: OrderId, row: Order, frozen: bool)
    requires Inv(s) && s.job.Pass? && s.job.at.Ready? && NotQueued(s.job.todo, i)
    requires TaskOk(s.orders, Reconcile(i, row))
    ensures QuietGood(s, if row.vccJob.Some? then MoveTo(s, HardFailPoll(i)) else HardFail(s, i, frozen))
  {
    if row.vccJob.Some? {
      MoveGood(s, HardFailPoll(i));
    } else if s.orders[i].status == Ordering {
      FailGood(s, i, Failed, frozen);
    }
  }

  lemma ReconcileRowGood(s: State, i: OrderId, row: Order, timedOut: bool, frozen: bool)
    requires Inv(s) && s.job.Pass? && s.job.at.Ready? && NotQueued(s.job.todo, i)
    requires TaskOk(s.orders, Reconcile(i, row))
    ensures QuietGood(s, ReconcileRow(s, i, row, timedOut, frozen))
  {
    if timedOut || row.attempt >= MaxAttempts {
      HardFailTaskGood(s, i, row, frozen);
    } else {
      ClaimGood(s, i, row);
    }
  }

  lemma TakeTaskGood(s: State, timedOut: bool, frozen: bool)
    requires Inv(s)
    ensures QuietGood(s, TakeTask(s, timedOut, frozen))
  {
    if s.job.Pass? && s.job.at.Ready? && s.job.todo != [] {
      PopGood(s);
      var s1 := s.(job := Pass(s.job.todo[1..], Ready));
      assert TaskOk(s.orders, s.job.todo[0]);
      match s.job.todo[0]
      case Reconcile(i, row) => ReconcileRowGood(s1, i, row, timedOut, frozen);
      case Recover(i, row) => MoveGood(s1, RecoverPoll(i, row));
    }
  }

  /** The three ways a CTX send ends: recorded, parked with its hash, or known not to have landed. */
  lemma SendRecordedGood(s: State, i: OrderId, row: Order, tx: Hash)
    requires Inv(s) && s.job.Pass? && s.job.at == Send(i, row)
    ensures QuietGood(s, SendReplied(s, i, row, CtxPaid(Some(tx))))
  {
    hide Inv;
    JobIsAt(s);
    StartNotifyGood(s, i, row, s.orders[i].(xlmSent := true, ctxTx := Some(tx)));
  }

  lemma SendParkedGood(s: State, i: OrderId, row: Order, tx: Hash)
    requires Inv(s) && s.job.Pass? && s.job.at == Send(i, row)
    ensures QuietGood(s, SendReplied(s, i, row, CtxAmbiguous(Some(tx))))
  {
    hide Inv;
    JobIsAt(s);
    JobWriteGood(s, i, s.orders[i].(status := Failed, ctxTx := Some(tx)), Ready);
  }

  lemma SendUndoneGood(s: State, i: OrderId, row: Order, reply: JobReply)
    requires Inv(s) && s.job.Pass? && s.job.at == Send(i, row) && !reply.CtxPaid? && !reply.CtxAmbiguous?
    ensures QuietGood(s, SendReplied(s, i, row, reply))
  {
    hide Inv;
    JobIsAt(s);
    JobWriteGood(s, i, s.orders[i].(world := s.orders[i].world.(ctxSends := 0)), Ready);
  }

  lemma SendReplyGood(s: State, i: OrderId, row: Order, reply: JobReply)
    requires Inv(s) && s.job.Pass? && s.job.at == Send(i, row)
    requires reply.CtxPaid? ==> reply.tx.Some?
    requires reply.CtxAmbiguous? ==> reply.tx.Some?
    ensures QuietGood(s, SendReplied(s, i, row, reply))
  {
    match reply
    case CtxPaid(tx) => SendRecordedGood(s, i, row, tx.value);
    case CtxAmbiguous(tx) => SendParkedGood(s, i, row, tx.value);
    case _ => SendUndoneGood(s, i, row, reply);
  }

  lemma HardFailReplyGood(s: State, reply: JobReply, frozen: bool)
    requires Inv(s) && s.job.Pass? && s.job.at.HardFailPoll?
    ensures QuietGood(s, JobReplied(s, reply, frozen))
  {
    hide Inv, RefundOrQuarantine;
    JobIsAt(s);
    MoveGood(s, Ready);
    var i, s1 := s.job.at.id, MoveTo(s, Ready);
    if s.orders[i].status == Ordering { FailGood(s1, i, Failed, frozen); }
  }

  lemma RecoverReplyGood(s: State, reply: JobReply, frozen: bool)
    requires Inv(s) && s.job.Pass? && s.job.at.RecoverPoll?
    ensures QuietGood(s, JobReplied(s, reply, frozen))
  {
    hide Inv, RefundOrQuarantine;
    JobIsAt(s);
    MoveGood(s, Ready);
    var i, s1 := s.job.at.id, MoveTo(s, Ready);
    var target := if s.job.at.row.ctxTx.Some? then PendingManualRecovery else Failed;
    if s.orders[i].status == Ordering { FailGood(s1, i, target, frozen); }
  }

  lemma InvoiceReplyGood(s: State, reply: JobReply, frozen: bool)
    requires Inv(s) && s.job.Pass? && (s.job.at.Invoice? || s.job.at.JobPoll? || s.job.at.Notify?)
    ensures QuietGood(s, JobReplied(s, reply, frozen))
  {
    hide Inv;
    JobIsAt(s);
    var i := s.job.at.id;
    var r := s.orders[i];
    MoveGood(s, Ready);
    match s.job.at
    case Invoice(_, row) =>
      UnsentNow(s, i);
      if reply.Invoiced? { AfterInvoiceGood(s, i, row, r.(vccJob := Some(reply.job)), reply.hasUrl); }
    case JobPoll(_, row) =>
      UnsentNow(s, i);
      assert s.orders[i := r] == s.orders;
      if reply.StillInvoiced? { StartSendGood(s, i, row, r); }
      if reply.PastInvoice? { StartNotifyGood(s, i, row, r.(xlmSent := true)); }
    case Notify(_) =>
      NotifiedIsRecorded(s, i);
      if reply.Notified? { JobWriteGood(s, i, r.(vccNotified := true), Ready); }
  }

  lemma NotifiedIsRecorded(s: State, i: OrderId)
    requires Inv(s) && s.job.Pass? && s.job.at == Notify(i)
    ensures i < |s.orders| && !(s.orders[i].world.ctxSends == 1 && s.orders[i].ctxTx.None?)
  {
    assert AtOk(s.orders, s.job.at);
    assert s.orders[i].world.ctxSends == 1 && s.orders[i].ctxTx.None? ==> Sending(s.job, i);
  }

  lemma JobReplyGood(s: State, reply: JobReply, frozen: bool)
    requires Inv(s) && SendsCarryHash(s, DoJobReply(reply, frozen))
    ensures QuietGood(s, JobReplied(s, reply, frozen))
  {
    hide Inv, PollHardFailReplied, InvoiceReplied, JobPollReplied, NotifyReplied, RecoverReplied;
    if s.job.Pass? && !s.job.at.Ready? {
      if s.job.at.Send? {
        SendReplyGood(s, s.job.at.id, s.job.at.row, reply);
      } else if s.job.at.HardFailPoll? {
        HardFailReplyGood(s, reply, frozen);
      } else if s.job.at.RecoverPoll? {
        RecoverReplyGood(s, reply, frozen);
      } else {
        InvoiceReplyGood(s, reply, frozen);
      }
    }
  }

  lemma TickGood(s: State, seconds: nat)
    requires Inv(s)
    ensures QuietGood(s, s.(now := s.now + seconds))
  {}

  lemma ArriveGood(s: State, rid: nat, k: KeyId, amount: nat)
    requires Inv(s)
    ensures QuietGood(s, ArriveCreate(s, rid, k, amount))
  {
    var s' := ArriveCreate(s, rid, k, amount);
    forall q | q in s'.creating ensures RequestOk(s'.creating[q], s'.keys) {
      if q in s.creating { assert RequestOk(s.creating[q], s.keys); }
    }
  }

  lemma SuspendGood(s: State, k: KeyId, flag: bool)
    requires Inv(s)
    ensures Good(s, SetSuspended(s, k, flag))
  {
    hide RowsOk, PaymentsRecorded, HashesDistinct, RefundsOk, ApprovalsCoupled, AwaitingHaveApprovals, JobOk;
    var s' := SetSuspended(s, k, flag);
    forall q | q in s'.creating ensures RequestOk(s'.creating[q], s'.keys) {
      assert RequestOk(s.creating[q], s.keys);
    }
  }

  lemma CrashGood(s: State)
    requires Inv(s) && NoCrashInSend(s, Crash)
    ensures QuietGood(s, Next(s, Crash))
  {}

  /** The steps that deliver, add a row or flag a key; all others leave spend and the set of rows alone. */
  predicate Loud(step: Step) {
    step.DoVerifyReply? || (step.DoCallback? && step.result.Fulfilled?) || step.DoCommitCreate? || step.DoSetSuspended?
  }

  lemma BackgroundGood(s: State, step: Step)
    requires Inv(s) && Assumed(s, step)
    requires step.DoStartPass? || step.DoTakeTask? || step.DoJobReply? || step.DoRefundReply? || step.Crash?
    ensures QuietGood(s, Next(s, step))
  {
    hide Inv, Good, Quiet, StartPass, TakeTask, JobReplied, RefundReplied;
    match step
    case DoStartPass(ids, reconcile) => StartPassGood(s, ids, reconcile);
    case DoTakeTask(timedOut, frozen) => TakeTaskGood(s, timedOut, frozen);
    case DoJobReply(reply, frozen) => JobReplyGood(s, reply, frozen);
    case DoRefundReply(i, refund) => RefundReplyGood(s, i, refund);
    case Crash => CrashGood(s);
    case _ =>
  }

  /** Every step of every handler, in every interleaving, keeps the invariant and follows the status graph. */
  lemma NextGood(s: State, step: Step)
    requires Inv(s) && Assumed(s, step)
    ensures Good(s, Next(s, step))
    ensures !Loud(step) ==> Quiet(s, Next(s, step))
  {
    hide Inv, Good, Quiet, ArriveCreate, SetSuspended, CommitCreate, ExpireStale, EnterOrdering;
    hide VerifyBegin, VerifyReplied, Callback, StartPass, TakeTask, JobReplied, RefundReplied;
    match step
    case Tick(d) => TickGood(s, d);
    case DoArriveCreate(rid, k, amount) => ArriveGood(s, rid, k, amount);
    case DoSetSuspended(k, flag) => SuspendGood(s, k, flag);
    case DoCommitCreate(rid, payBy, refundable, builds) => CreateGood(s, rid, payBy, refundable, builds);
    case DoApprove(_, _, _) => ApprovalStepGood(s, step);
    case DoReject(_) => ApprovalStepGood(s, step);
    case DoExpireApproval(_) => ApprovalStepGood(s, step);
    case DoSuspendRound(_, _) => ApprovalStepGood(s, step);
    case DoExpireStale(i) => ExpireStaleGood(s, i);
    case DoEnterOrdering(i) => EnterOrderingGood(s, i);
    case DoVerifyBegin(vid, i, hash, ok) => VerifyBeginGood(s, vid, i, hash, ok);
    case DoVerifyReply(vid, node) => VerifyReplyGood(s, vid, node);
    case DoCallback(i, result, frozen) => CallbackGood(s, i, result, frozen);
    case _ => BackgroundGood(s, step);
  }

  /** The invariant holds after every run from empty tables. */
  lemma {:induction false} RunInv(s: State, steps: seq<Step>)
    requires Fresh(s) && Run(s, steps)
    ensures Inv(Exec(s, steps))
  {
    if steps == [] {
      InvFresh(s);
    } else {
      RunInv(s, steps[..|steps| - 1]);
      NextGood(Exec(s, steps[..|steps| - 1]), steps[|steps| - 1]);
    }
  }
}
