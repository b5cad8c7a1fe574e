/**
 * The backend's order tables as a state machine. A step is what one handler or job does from one
 * await to the next: those stretches are synchronous, so they are atomic. Every write is the guarded
 * UPDATE of the source, written as a function that leaves the state alone when the guard fails.
 * Amounts are integer cents, times are seconds, and a row's id is its position in its table.
 */
module Orders {
  import opened Common
  import opened Policy

  type OrderId = nat
  type KeyId = nat
  type Hash = nat
  type Card = nat

  datatype Status =
    | AwaitingApproval | PendingPayment | Ordering | Delivered | Failed
    | RefundPending | Refunded | PendingManualRecovery | Expired | Rejected

  /**
   * What happened outside the tables on account of one order: CTX payments that may have landed or are
   * in flight, whether `notifyPaid` was sent, refund sends started, and successful claims of the order.
   */
  datatype World = World(ctxSends: nat, notifySent: bool, refundSends: nat, claims: nat)

  datatype Order = Order(
    key: KeyId,
    amount: nat,
    createdAt: nat,
    status: Status,
    payBy: Option<nat>,
    card: Option<Card>,
    deployHash: Option<Hash>,
    refundable: bool,  // a sender address, a known asset and a valid amount are stored
    vccJob: Option<nat>,
    xlmSent: bool,
    ctxTx: Option<Hash>,
    vccNotified: bool,
    attempt: nat,
    refundTx: Option<Hash>,
    world: World)

  datatype ApprovalStatus = ApprovalPending | ApprovalApproved | ApprovalRejected | ApprovalExpired

  datatype Approval = Approval(key: KeyId, order: OrderId, amount: nat, expiresAt: nat, status: ApprovalStatus)

  /** POST /orders between the key snapshot taken by the auth middleware and its transaction. */
  datatype CreateRequest = CreateRequest(key: KeyId, amount: nat, snapshot: Key)

  /** POST /orders/:id/verify-payment waiting for the node's answer. */
  datatype VerifyRequest = VerifyRequest(order: OrderId, hash: Hash)

  /** A row picked by one of the two job SELECTs, with the columns as they were read. */
  datatype Task = Reconcile(id: OrderId, row: Order) | Recover(id: OrderId, row: Order)

  /** Which await the job is suspended at. */
  datatype At =
    | Ready
    | HardFailPoll(id: OrderId)
    | Invoice(id: OrderId, row: Order)
    | JobPoll(id: OrderId, row: Order)
    | Send(id: OrderId, row: Order)
    | Notify(id: OrderId)
    | RecoverPoll(id: OrderId, row: Order)

  /** `runJobs` holds a mutex, so at most one pass over the selected rows is under way. */
  datatype Job = Idle | Pass(todo: seq<Task>, at: At)

  datatype State = State(
    now: nat,
    keys: seq<Key>,
    orders: seq<Order>,
    approvals: seq<Approval>,
    creating: map<nat, CreateRequest>,
    verifying: map<nat, VerifyRequest>,
    job: Job,
    refunding: set<OrderId>)

  const MaxAttempts: nat := 3
  const StaleAfter: nat := 7200

  // ---- Totals over the table ------------------------------------------------------------------

  /** The sums the source takes over the orders table. */
  datatype Measure =
    | InFlight(key: KeyId) | DeliveredTotal(key: KeyId) | Claimable(key: KeyId) | Daily(key: KeyId, day: nat)

  predicate IsInFlight(status: Status) {
    status in {PendingPayment, Ordering, RefundPending, AwaitingApproval}
  }

  function Weight(m: Measure, r: Order): nat {
    match m
    case InFlight(k) => if r.key == k && IsInFlight(r.status) then r.amount else 0
    case DeliveredTotal(k) => if r.key == k && r.status == Delivered then r.amount else 0
    case Claimable(k) => if r.key == k && (IsInFlight(r.status) || r.status == Delivered) then r.amount else 0
    case Daily(k, day) =>
      if r.key == k && r.status !in {Expired, Rejected} && DayOf(r.createdAt) == day then r.amount else 0
  }

  function Total(m: Measure, rows: seq<Order>): nat {
    if rows == [] then 0 else Total(m, rows[..|rows| - 1]) + Weight(m, rows[|rows| - 1])
  }

  // ---- Guarded updates ------------------------------------------------------------------------

  function SetRow(s: State, i: OrderId, r: Order): State {
    if i < |s.orders| then s.(orders := s.orders[i := r]) else s
  }

  function Settle(s: State, k: KeyId, amount: nat): State {
    if k < |s.keys| then s.(keys := s.keys[k := s.keys[k].(settled := s.keys[k].settled + amount)]) else s
  }

  /** The one write that turns a row `delivered`, and the spend it adds to the key. */
  function Deliver(s: State, i: OrderId, card: Card, hash: Option<Hash>): State {
    if i >= |s.orders| then s
    else
      var r := s.orders[i];
      var claimed := r.(status := Delivered, card := Some(card), deployHash := hash,
                        world := r.world.(claims := r.world.claims + 1));
      Settle(SetRow(s, i, claimed), r.key, r.amount)
  }

  // ---- Refund or quarantine (fulfillment.js) -----------------------------------------------------

  /** The row once the refund is claimed: `refund_pending`, with a send started when the row can be refunded. */
  function RefundRow(r: Order): Order {
    if r.refundable then r.(status := RefundPending, world := r.world.(refundSends := r.world.refundSends + 1))
    else r.(status := RefundPending)
  }

  /** `scheduleRefund` up to the send. */
  function ScheduleRefund(s: State, i: OrderId, frozen: bool): State {
    if i >= |s.orders| || frozen || s.orders[i].status in {RefundPending, Refunded} then s
    else
      var s1 := SetRow(s, i, RefundRow(s.orders[i]));
      if s.orders[i].refundable then s1.(refunding := s.refunding + {i}) else s1
  }

  const Terminal: set<Status> := {Delivered, Failed, Refunded, RefundPending, PendingManualRecovery}

  function Quarantine(s: State, i: OrderId): State {
    if i >= |s.orders| || s.orders[i].status in Terminal then s
    else SetRow(s, i, s.orders[i].(status := PendingManualRecovery))
  }

  function RefundOrQuarantine(s: State, i: OrderId, frozen: bool): State {
    if i < |s.orders| && s.orders[i].ctxTx.Some? then Quarantine(s, i) else ScheduleRefund(s, i, frozen)
  }

  datatype RefundReply = RefundLanded(tx: Hash) | RefundFailed(seen: Option<Hash>)

  function RefundReplied(s: State, i: OrderId, reply: RefundReply): State {
    if i !in s.refunding || i >= |s.orders| then s
    else
      var s1 := s.(refunding := s.refunding - {i});
      var r := s.orders[i];
      match reply
      case RefundLanded(tx) => SetRow(s1, i, r.(status := Refunded, refundTx := Some(tx)))
      case RefundFailed(None) => s1
      case RefundFailed(Some(tx)) => SetRow(s1, i, r.(refundTx := if r.refundTx.Some? then r.refundTx else Some(tx)))
  }

  // ---- POST /orders -----------------------------------------------------------------------------

  const MinAmount: nat := 1
  const MaxAmount: nat := 1_000_000

  function ArriveCreate(s: State, rid: nat, k: KeyId, amount: nat): State {
    if rid in s.creating || k >= |s.keys| || !(MinAmount <= amount <= MaxAmount) then s
    else s.(creating := s.creating[rid := CreateRequest(k, amount, s.keys[k])])
  }

  datatype CreateOutcome =
    | NoRequest | SpendLimitExceeded | PolicyBlocked(rule: string) | InvalidPayment
    | AwaitsApproval | Payable

  /** The decision of the transaction: the limit check on the snapshot, then the policy on the fresh row. */
  function CreateDecision(s: State, rid: nat, instructionsBuild: bool): CreateOutcome {
    if rid !in s.creating then NoRequest
    else
      var req := s.creating[rid];
      if req.snapshot.spendLimit.Some? &&
         req.snapshot.settled + Total(InFlight(req.key), s.orders) + req.amount > req.snapshot.spendLimit.value
      then SpendLimitExceeded
      else if req.key >= |s.keys| then PolicyBlocked("key_not_found")
      else
        match CheckPolicy(s.keys[req.key], Total(Daily(req.key, DayOf(s.now)), s.orders), req.amount, s.now)
        case Blocked(rule) => PolicyBlocked(rule)
        case PendingApproval => AwaitsApproval
        case Approved => if instructionsBuild then Payable else InvalidPayment
  }

  function NewRow(s: State, req: CreateRequest, status: Status, payBy: Option<nat>, refundable: bool): Order {
    Order(req.key, req.amount, s.now, status, payBy, None, None, refundable,
          None, false, None, false, 0, None, World(0, false, 0, 0))
  }

  const ApprovalTtl: nat := 7200

  function CommitCreate(s: State, rid: nat, payBy: Option<nat>, refundable: bool, instructionsBuild: bool): State {
    if rid !in s.creating then s
    else
      var req := s.creating[rid];
      var s1 := s.(creating := s.creating - {rid});
      match CreateDecision(s, rid, instructionsBuild)
      case AwaitsApproval =>
        s1.(orders := s.orders + [NewRow(s, req, AwaitingApproval, None, refundable)],
            approvals := s.approvals +
              [Approval(req.key, |s.orders|, req.amount, s.now + ApprovalTtl, ApprovalPending)])
      case Payable => s1.(orders := s.orders + [NewRow(s, req, PendingPayment, payBy, refundable)])
      case _ => s1
  }

  // ---- Approvals (dashboard.js, jobs.js) ---------------------------------------------------------

  function SetApproval(s: State, a: nat, status: ApprovalStatus): State {
    if a < |s.approvals| then s.(approvals := s.approvals[a := s.approvals[a].(status := status)]) else s
  }

  datatype ApproveResult = ApproveOk | ApproveGone | ApproveThrew | OrderStateDrift

  /** The transaction of the approve handler; any throw inside it rolls both tables back. */
  function ApproveOutcome(s: State, a: nat, instructionsBuild: bool): ApproveResult {
    if a >= |s.approvals| || s.approvals[a].status != ApprovalPending || s.approvals[a].expiresAt < s.now
    then ApproveGone
    else if !instructionsBuild then ApproveThrew
    else if s.approvals[a].order < |s.orders| && s.orders[s.approvals[a].order].status == AwaitingApproval
    then ApproveOk
    else OrderStateDrift
  }

  function CommitApprove(s: State, a: nat, payBy: Option<nat>, instructionsBuild: bool): State {
    if ApproveOutcome(s, a, instructionsBuild) != ApproveOk then s
    else
      var i := s.approvals[a].order;
      SetRow(SetApproval(s, a, ApprovalApproved), i, s.orders[i].(status := PendingPayment, payBy := payBy))
  }

  function RejectOrder(s: State, i: OrderId): State {
    if i < |s.orders| && s.orders[i].status == AwaitingApproval
    then SetRow(s, i, s.orders[i].(status := Rejected)) else s
  }

  function RejectApproval(s: State, a: nat): State {
    if a >= |s.approvals| || s.approvals[a].status != ApprovalPending then s
    else RejectOrder(SetApproval(s, a, ApprovalRejected), s.approvals[a].order)
  }

  function ExpireApproval(s: State, a: nat): State {
    if a >= |s.approvals| || s.approvals[a].status != ApprovalPending || s.approvals[a].expiresAt >= s.now then s
    else RejectOrder(SetApproval(s, a, ApprovalExpired), s.approvals[a].order)
  }

  /** One round of the suspend handler's loop: the order UPDATE carries no status guard. */
  function SuspendRound(s: State, k: KeyId, a: nat): State {
    if a >= |s.approvals| || s.approvals[a].key != k || s.approvals[a].status != ApprovalPending then s
    else
      var i := s.approvals[a].order;
      var s1 := SetApproval(s, a, ApprovalRejected);
      if i < |s.orders| then SetRow(s1, i, s.orders[i].(status := Rejected)) else s1
  }

  function SetSuspended(s: State, k: KeyId, flag: bool): State {
    if k < |s.keys| then s.(keys := s.keys[k := s.keys[k].(suspended := flag)]) else s
  }

  // ---- Payment window and the legacy payment handler ----------------------------------------------

  function ExpireStale(s: State, i: OrderId): State {
    if i < |s.orders| && s.orders[i].status == PendingPayment && s.orders[i].createdAt + StaleAfter < s.now
    then SetRow(s, i, s.orders[i].(status := Expired)) else s
  }

  /** A legacy payment was seen on chain: the row enters the CTX pipeline (not done by these files). */
  function EnterOrdering(s: State, i: OrderId): State {
    if i < |s.orders| && s.orders[i].status == PendingPayment then SetRow(s, i, s.orders[i].(status := Ordering)) else s
  }

  // ---- POST /orders/:id/verify-payment -------------------------------------------------------------

  predicate HashTaken(rows: seq<Order>, i: OrderId, hash: Hash) {
    exists j :: 0 <= j < |rows| && j != i && rows[j].deployHash == Some(hash)
  }

  /** Up to the node call. `checksPass` stands for the asset, instruction and sender checks, which only refuse. */
  function VerifyBegin(s: State, vid: nat, i: OrderId, hash: Hash, checksPass: bool): State {
    if vid in s.verifying || i >= |s.orders| || s.orders[i].status != PendingPayment || !checksPass then s
    else if s.orders[i].payBy.Some? && s.orders[i].payBy.value <= s.now then
      SetRow(s, i, s.orders[i].(status := Expired))
    else if HashTaken(s.orders, i, hash) then s
    else s.(verifying := s.verifying[vid := VerifyRequest(i, hash)])
  }

  datatype NodeReply = NotVerified | Verified(card: Card)

  /** After the node call: the claim. The unique index on the deploy hash makes a duplicate write fail. */
  function VerifyReplied(s: State, vid: nat, reply: NodeReply): State {
    if vid !in s.verifying then s
    else
      var req := s.verifying[vid];
      var s1 := s.(verifying := s.verifying - {vid});
      if reply.NotVerified? || req.order >= |s.orders| then s1
      else
        var r := s.orders[req.order];
        if r.status != PendingPayment || r.deployHash.Some? || HashTaken(s.orders, req.order, req.hash) then s1
        else Deliver(s1, req.order, reply.card, Some(req.hash))
  }

  // ---- POST /vcc-callback ---------------------------------------------------------------------------

  datatype VccResult = Fulfilled(card: Card) | VccFailed

  function Callback(s: State, i: OrderId, result: VccResult, frozen: bool): (t: State)
    ensures t.approvals == s.approvals
  {
    if i >= |s.orders| || s.orders[i].status in Terminal then s
    else
      var r := s.orders[i];
      match result
      case Fulfilled(card) => Deliver(s, i, card, r.deployHash)
      case VccFailed =>
        var target := if r.ctxTx.Some? then PendingManualRecovery else Failed;
        RefundOrQuarantine(SetRow(s, i, r.(status := target)), i, frozen)
  }

  // ---- The reconcile and recover jobs -----------------------------------------------------------------

  predicate ReconcileFilter(r: Order) {
    r.status == Ordering && (r.vccJob.None? || !r.xlmSent || !r.vccNotified) && r.ctxTx.None?
  }

  predicate RecoverFilter(r: Order) {
    r.status in {PendingPayment, Ordering} && r.vccJob.Some?
  }

  /** A job SELECT: any rows that match its filter, each once; the time cut-off may leave some out. */
  predicate Selects(s: State, ids: seq<OrderId>, reconcile: bool) {
    && (forall j :: 0 <= j < |ids| ==> ids[j] < |s.orders|)
    && (forall j :: 0 <= j < |ids| ==>
          if reconcile then ReconcileFilter(s.orders[ids[j]]) else RecoverFilter(s.orders[ids[j]]))
    && (forall j, k :: 0 <= j < k < |ids| ==> ids[j] != ids[k])
  }

  function Tasks(rows: seq<Order>, ids: seq<OrderId>, reconcile: bool): seq<Task>
    requires forall j :: 0 <= j < |ids| ==> ids[j] < |rows|
  {
    seq(|ids|, j requires 0 <= j < |ids| =>
      if reconcile then Reconcile(ids[j], rows[ids[j]]) else Recover(ids[j], rows[ids[j]]))
  }

  function StartPass(s: State, ids: seq<OrderId>, reconcile: bool): State {
    if s.job.Idle? && Selects(s, ids, reconcile) then s.(job := Pass(Tasks(s.orders, ids, reconcile), Ready)) else s
  }

  function MoveTo(s: State, at: At): State {
    if s.job.Pass? then s.(job := s.job.(at := at)) else s
  }

  /** The guarded `failed` write and, only when it hit, the refund decision. */
  function HardFail(s: State, i: OrderId, frozen: bool): State {
    if i < |s.orders| && s.orders[i].status == Ordering
    then RefundOrQuarantine(SetRow(s, i, s.orders[i].(status := Failed)), i, frozen) else s
  }

  function StartNotify(s: State, i: OrderId, row: Order): State {
    if row.vccNotified || i >= |s.orders| then MoveTo(s, Ready)
    else
      var r := s.orders[i];
      MoveTo(SetRow(s, i, r.(world := r.world.(notifySent := true))), Notify(i))
  }

  function StartSend(s: State, i: OrderId, row: Order): State {
    if i >= |s.orders| then MoveTo(s, Ready)
    else
      var r := s.orders[i];
      MoveTo(SetRow(s, i, r.(world := r.world.(ctxSends := r.world.ctxSends + 1))), Send(i, row))
  }

  /** Steps 2 and 3 once a vcc job is known; `row` is the row as selected, not as it is now. */
  function AfterInvoice(s: State, i: OrderId, row: Order, hasUrl: bool): State {
    if row.xlmSent then StartNotify(s, i, row)
    else if hasUrl then StartSend(s, i, row)
    else MoveTo(s, JobPoll(i, row))
  }

  /** The claim on the attempt counter and, when it hit, the first await of the retry. */
  function ClaimAttempt(s: State, i: OrderId, row: Order): State {
    if i >= |s.orders| || s.orders[i].status != Ordering || s.orders[i].attempt != row.attempt then s
    else
      var s1 := SetRow(s, i, s.orders[i].(attempt := s.orders[i].attempt + 1));
      if row.vccJob.None? then MoveTo(s1, Invoice(i, row)) else AfterInvoice(s1, i, row, false)
  }

  function ReconcileRow(s: State, i: OrderId, row: Order, timedOut: bool, frozen: bool): State {
    if timedOut || row.attempt >= MaxAttempts then
      if row.vccJob.Some? then MoveTo(s, HardFailPoll(i)) else HardFail(s, i, frozen)
    else ClaimAttempt(s, i, row)
  }

  /** The next selected row, up to its first await. */
  function TakeTask(s: State, timedOut: bool, frozen: bool): (t: State)
    ensures t.approvals == s.approvals
  {
    if s.job.Idle? || s.job.at != Ready then s
    else if s.job.todo == [] then s.(job := Idle)
    else
      var s1 := s.(job := Pass(s.job.todo[1..], Ready));
      match s.job.todo[0]
      case Recover(i, row) => MoveTo(s1, RecoverPoll(i, row))
      case Reconcile(i, row) => ReconcileRow(s1, i, row, timedOut, frozen)
  }

  datatype JobReply =
    | CallFailed                                     // the awaited call threw, no payment was sent
    | VccInProgress | VccNotInProgress               // hard-fail poll
    | Invoiced(job: nat, hasUrl: bool)               // getInvoice
    | StillInvoiced | PastInvoice                    // getVccJobStatus before the payment
    | CtxPaid(tx: Option<Hash>) | CtxAmbiguous(tx: Option<Hash>)
    | Notified
    | VccReportsFailed | VccReportsOther             // recover poll

  function PollHardFailReplied(s: State, i: OrderId, reply: JobReply, frozen: bool): State {
    if reply.VccNotInProgress? then HardFail(MoveTo(s, Ready), i, frozen) else MoveTo(s, Ready)
  }

  function InvoiceReplied(s: State, i: OrderId, row: Order, reply: JobReply): State {
    if !reply.Invoiced? || i >= |s.orders| then MoveTo(s, Ready)
    else AfterInvoice(SetRow(s, i, s.orders[i].(vccJob := Some(reply.job))), i, row, reply.hasUrl)
  }

  function JobPollReplied(s: State, i: OrderId, row: Order, reply: JobReply): State {
    if reply.StillInvoiced? then StartSend(s, i, row)
    else if reply.PastInvoice? && i < |s.orders| then StartNotify(SetRow(s, i, s.orders[i].(xlmSent := true)), i, row)
    else MoveTo(s, Ready)
  }

  /** The park and the success record are both unguarded; only an ambiguous error with a hash parks. */
  function SendReplied(s: State, i: OrderId, row: Order, reply: JobReply): State {
    if i >= |s.orders| then MoveTo(s, Ready)
    else
      var r := s.orders[i];
      match reply
      case CtxPaid(tx) => StartNotify(SetRow(s, i, r.(xlmSent := true, ctxTx := tx)), i, row)
      case CtxAmbiguous(Some(tx)) => MoveTo(SetRow(s, i, r.(status := Failed, ctxTx := Some(tx))), Ready)
      case CtxAmbiguous(None) => MoveTo(s, Ready)
      case _ =>
        var unsent := if r.world.ctxSends > 0 then r.world.ctxSends - 1 else 0;
        MoveTo(SetRow(s, i, r.(world := r.world.(ctxSends := unsent))), Ready)
  }

  function NotifyReplied(s: State, i: OrderId, reply: JobReply): State {
    if reply.Notified? && i < |s.orders| then MoveTo(SetRow(s, i, s.orders[i].(vccNotified := true)), Ready)
    else MoveTo(s, Ready)
  }

  function RecoverReplied(s: State, i: OrderId, row: Order, reply: JobReply, frozen: bool): State {
    var s1 := MoveTo(s, Ready);
    if !reply.VccReportsFailed? || i >= |s.orders| || s.orders[i].status !in {PendingPayment, Ordering} then s1
    else
      var target := if row.ctxTx.Some? then PendingManualRecovery else Failed;
      RefundOrQuarantine(SetRow(s1, i, s.orders[i].(status := target)), i, frozen)
  }

  function JobReplied(s: State, reply: JobReply, frozen: bool): (t: State)
    ensures t.approvals == s.approvals
  {
    if s.job.Idle? then s
    else
      match s.job.at
      case Ready => s
      case HardFailPoll(i) => PollHardFailReplied(s, i, reply, frozen)
      case Invoice(i, row) => InvoiceReplied(s, i, row, reply)
      case JobPoll(i, row) => JobPollReplied(s, i, row, reply)
      case Send(i, row) => SendReplied(s, i, row, reply)
      case Notify(i) => NotifyReplied(s, i, reply)
      case RecoverPoll(i, row) => RecoverReplied(s, i, row, reply, frozen)
  }

  // ---- Steps and runs ------------------------------------------------------------------------------------

  datatype Step =
    | Tick(seconds: nat)
    | DoArriveCreate(rid: nat, key: KeyId, amount: nat)
    | DoCommitCreate(rid: nat, payBy: Option<nat>, refundable: bool, builds: bool)
    | DoApprove(approval: nat, payBy: Option<nat>, builds: bool)
    | DoReject(approval: nat)
    | DoExpireApproval(approval: nat)
    | DoSetSuspended(key: KeyId, flag: bool)
    | DoSuspendRound(key: KeyId, approval: nat)
    | DoExpireStale(order: OrderId)
    | DoEnterOrdering(order: OrderId)
    | DoVerifyBegin(vid: nat, order: OrderId, hash: Hash, checksPass: bool)
    | DoVerifyReply(vid: nat, node: NodeReply)
    | DoCallback(order: OrderId, result: VccResult, frozen: bool)
    | DoStartPass(ids: seq<OrderId>, reconcile: bool)
    | DoTakeTask(timedOut: bool, frozen: bool)
    | DoJobReply(reply: JobReply, frozen: bool)
    | DoRefundReply(order: OrderId, refund: RefundReply)
    | Crash

  function Next(s: State, step: Step): State {
    match step
    case Tick(d) => s.(now := s.now + d)
    case DoArriveCreate(rid, k, amount) => ArriveCreate(s, rid, k, amount)
    case DoCommitCreate(rid, payBy, refundable, builds) => CommitCreate(s, rid, payBy, refundable, builds)
    case DoApprove(a, payBy, builds) => CommitApprove(s, a, payBy, builds)
    case DoReject(a) => RejectApproval(s, a)
    case DoExpireApproval(a) => ExpireApproval(s, a)
    case DoSetSuspended(k, flag) => SetSuspended(s, k, flag)
    case DoSuspendRound(k, a) => SuspendRound(s, k, a)
    case DoExpireStale(i) => ExpireStale(s, i)
    case DoEnterOrdering(i) => EnterOrdering(s, i)
    case DoVerifyBegin(vid, i, hash, ok) => VerifyBegin(s, vid, i, hash, ok)
    case DoVerifyReply(vid, node) => VerifyReplied(s, vid, node)
    case DoCallback(i, result, frozen) => Callback(s, i, result, frozen)
    case DoStartPass(ids, reconcile) => StartPass(s, ids, reconcile)
    case DoTakeTask(timedOut, frozen) => TakeTask(s, timedOut, frozen)
    case DoJobReply(reply, frozen) => JobReplied(s, reply, frozen)
    case DoRefundReply(i, refund) => RefundReplied(s, i, refund)
    // A restart forgets every suspended handler; the tables stay.
    case Crash => s.(creating := map[], verifying := map[], job := Idle, refunding := {})
  }

  /** vcc speaks of a result only once `notifyPaid` was sent for the order. */
  predicate VccAfterNotify(s: State, step: Step) {
    step.DoCallback? && step.order < |s.orders| ==> s.orders[step.order].world.notifySent
  }

  /** The process does not die between a CTX send and the write that records it. */
  predicate NoCrashInSend(s: State, step: Step) {
    step.Crash? && s.job.Pass? ==> !s.job.at.Send?
  }

  /** A CTX send that may have landed reports its transaction hash. */
  predicate SendsCarryHash(s: State, step: Step) {
    && (step.DoJobReply? && step.reply.CtxPaid? ==> step.reply.tx.Some?)
    && (step.DoJobReply? && step.reply.CtxAmbiguous? ==> step.reply.tx.Some?)
  }

  /** What the safety theorems assume of the world outside these tables. */
  predicate Assumed(s: State, step: Step) {
    VccAfterNotify(s, step) && NoCrashInSend(s, step) && SendsCarryHash(s, step)
  }

  function Exec(s: State, steps: seq<Step>): State {
    if steps == [] then s else Next(Exec(s, steps[..|steps| - 1]), steps[|steps| - 1])
  }

  /** Every step of the run, taken from the state it starts in, meets the assumptions. */
  predicate Run(s: State, steps: seq<Step>) {
    steps == [] ||
    (Run(s, steps[..|steps| - 1]) && Assumed(Exec(s, steps[..|steps| - 1]), steps[|steps| - 1]))
  }

  predicate Fresh(s: State) {
    && s.orders == [] && s.approvals == [] && s.creating == map[] && s.verifying == map[]
    && s.job == Idle && s.refunding == {}
    && (forall k :: 0 <= k < |s.keys| ==> s.keys[k].settled == 0)
  }
}
