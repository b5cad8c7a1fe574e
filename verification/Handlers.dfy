/**
 * The handlers as they run against the tables: guarded UPDATEs that report whether they hit a row,
 * and loops over selected rows. Each is proved to have the effect of its step in `Orders`.
 */
module Handlers {
  import opened Common
  import opened Policy
  import opened Orders
  import opened OrderInvariant
  import opened Budget

  /** The invariant of every reachable state, and settled spend as the sum of the delivered orders. */
  predicate Sound(s: State) { Inv(s) && SettledExact(s) }

  lemma StepSound(s: State, step: Step)
    ensures Sound(s) && Assumed(s, step) ==> Sound(Next(s, step))
  {
    if Sound(s) && Assumed(s, step) {
      NextGood(s, step);
      SettledKept(s, step);
    }
  }

  class Store {
    var now: nat
    var keys: seq<Key>
    var orders: seq<Order>
    var approvals: seq<Approval>
    var creating: map<nat, CreateRequest>
    var verifying: map<nat, VerifyRequest>
    var job: Job
    var refunding: set<OrderId>

    function Tables(): State
      reads this
    {
      State(now, keys, orders, approvals, creating, verifying, job, refunding)
    }

    /** Kept by every handler, from whatever state it starts in. */
    predicate Valid()
      reads this
    {
      Sound(Tables())
    }

    constructor (keys: seq<Key>)
      requires forall k :: 0 <= k < |keys| ==> keys[k].settled == 0
      ensures Fresh(Tables()) && this.keys == keys && Valid()
    {
      this.now, this.keys, this.orders, this.approvals := 0, keys, [], [];
      creating, verifying, job, refunding := map[], map[], Idle, {};
    }

    /** UPDATE orders SET status WHERE id AND status IN (from): the number of rows hit is 0 or 1. */
    method UpdateStatus(i: OrderId, from: set<Status>, to: Status) returns (hit: bool)
      modifies this`orders
      ensures hit == (i < |old(orders)| && old(orders)[i].status in from)
      ensures orders == if hit then old(orders)[i := old(orders)[i].(status := to)] else old(orders)
    {
      hit := i < |orders| && orders[i].status in from;
      if hit { orders := orders[i := orders[i].(status := to)]; }
    }

    /** The same UPDATE with WHERE status NOT IN (excluded). */
    method UpdateStatusUnless(i: OrderId, excluded: set<Status>, to: Status) returns (hit: bool)
      modifies this`orders
      ensures hit == (i < |old(orders)| && old(orders)[i].status !in excluded)
      ensures orders == if hit then old(orders)[i := old(orders)[i].(status := to)] else old(orders)
    {
      hit := i < |orders| && orders[i].status !in excluded;
      if hit { orders := orders[i := orders[i].(status := to)]; }
    }

    method AddSpend(k: KeyId, amount: nat)
      modifies this`keys
      ensures Tables() == Settle(old(Tables()), k, amount)
    {
      if k < |keys| { keys := keys[k := keys[k].(settled := keys[k].settled + amount)]; }
    }

    // ---- POST /orders ---------------------------------------------------------------------------------

    /** The transaction: limit check on the snapshot, policy on the fresh row, then the inserts. */
    method PostOrder(rid: nat, payBy: Option<nat>, refundable: bool, builds: bool) returns (outcome: CreateOutcome)
      requires rid in creating && creating[rid].key < |keys|
      modifies this`creating, this`orders, this`approvals
      ensures outcome == CreateDecision(old(Tables()), rid, builds)
      ensures Tables() == CommitCreate(old(Tables()), rid, payBy, refundable, builds)
      ensures old(Valid()) ==> Valid()
    {
      hide Sound;
      StepSound(Tables(), DoCommitCreate(rid, payBy, refundable, builds));
      var req := creating[rid];
      creating := creating - {rid};
      if req.snapshot.spendLimit.Some? {
        var inFlight := Total(InFlight(req.key), orders);
        if req.snapshot.settled + inFlight + req.amount > req.snapshot.spendLimit.value {
          return SpendLimitExceeded;
        }
      }
      var spentToday := Total(Daily(req.key, DayOf(now)), orders);
      match CheckPolicy(keys[req.key], spentToday, req.amount, now) {
        case Blocked(rule) => outcome := PolicyBlocked(rule);
        case PendingApproval =>
          approvals := approvals + [Approval(req.key, |orders|, req.amount, now + ApprovalTtl, ApprovalPending)];
          orders := orders + [NewRow(Tables(), req, AwaitingApproval, None, refundable)];
          outcome := AwaitsApproval;
        case Approved =>
          if builds {
            orders := orders + [NewRow(Tables(), req, PendingPayment, payBy, refundable)];
            outcome := Payable;
          } else {
            outcome := InvalidPayment;
          }
      }
    }

    // ---- POST /orders/:id/verify-payment -----------------------------------------------------------------

    /** Up to the node call: refused, expired by its payment deadline, or waiting for the node. */
    method BeginVerify(vid: nat, i: OrderId, hash: Hash, checksPass: bool) returns (waiting: bool)
      requires vid !in verifying
      modifies this`verifying, this`orders
      ensures Tables() == VerifyBegin(old(Tables()), vid, i, hash, checksPass)
      ensures waiting == (vid in verifying)
      ensures old(Valid()) ==> Valid()
    {
      hide Sound;
      StepSound(Tables(), DoVerifyBegin(vid, i, hash, checksPass));
      if i >= |orders| || orders[i].status != PendingPayment || !checksPass { return false; }
      if orders[i].payBy.Some? && orders[i].payBy.value <= now {
        var _ := UpdateStatus(i, {PendingPayment}, Expired);
        return false;
      }
      var taken := FindHash(i, hash);
      if taken { return false; }
      verifying := verifying[vid := VerifyRequest(i, hash)];
      waiting := true;
    }

    /** The claim: only a row still pending and unhashed is written, and only then is the spend added. */
    method ClaimPayment(vid: nat, node: NodeReply) returns (claimed: bool)
      requires vid in verifying
      modifies this`verifying, this`orders, this`keys
      ensures Tables() == VerifyReplied(old(Tables()), vid, node)
      ensures claimed == (orders != old(orders))
      ensures old(Valid()) ==> Valid()
    {
      hide Sound;
      StepSound(Tables(), DoVerifyReply(vid, node));
      var req := verifying[vid];
      verifying := verifying - {vid};
      if node.NotVerified? { return false; }
      var i := req.order;
      if i >= |orders| || orders[i].status != PendingPayment || orders[i].deployHash.Some? { return false; }
      var taken := FindHash(i, req.hash);
      if taken { return false; }
      var r := orders[i];
      orders := orders[i := r.(status := Delivered, card := Some(node.card), deployHash := Some(req.hash),
                               world := r.world.(claims := r.world.claims + 1))];
      AddSpend(r.key, r.amount);
      claimed := true;
      assert orders[i].status == Delivered && old(orders)[i].status == PendingPayment;
    }

    /** The unique index: is the hash on another row? */
    method FindHash(i: OrderId, hash: Hash) returns (taken: bool)
      ensures taken == HashTaken(orders, i, hash)
    {
      for j := 0 to |orders|
        invariant forall x :: 0 <= x < j && x != i ==> orders[x].deployHash != Some(hash)
      {
        if j != i && orders[j].deployHash == Some(hash) { return true; }
      }
      return false;
    }

    // ---- Refund or quarantine ----------------------------------------------------------------------------------

    method ScheduleRefund(i: OrderId, frozen: bool)
      modifies this`orders, this`refunding
      ensures Tables() == Orders.ScheduleRefund(old(Tables()), i, frozen)
    {
      if frozen { return; }
      var claimed := UpdateStatusUnless(i, {RefundPending, Refunded}, RefundPending);
      if !claimed || !orders[i].refundable { return; }
      orders := orders[i := orders[i].(world := orders[i].world.(refundSends := orders[i].world.refundSends + 1))];
      refunding := refunding + {i};
    }

    /** After the send: refunded under its hash, or the first hash seen on a failed send kept for review. */
    method RefundReturned(i: OrderId, reply: RefundReply)
      requires i in refunding && i < |orders|
      modifies this`orders, this`refunding
      ensures Tables() == RefundReplied(old(Tables()), i, reply)
      ensures old(Valid()) ==> Valid()
    {
      hide Sound;
      StepSound(Tables(), DoRefundReply(i, reply));
      refunding := refunding - {i};
      match reply {
        case RefundLanded(tx) => orders := orders[i := orders[i].(status := Refunded, refundTx := Some(tx))];
        case RefundFailed(seen) =>
          if seen.Some? && orders[i].refundTx.None? { orders := orders[i := orders[i].(refundTx := seen)]; }
      }
    }

    method RefundOrQuarantine(i: OrderId, frozen: bool)
      modifies this`orders, this`refunding
      ensures Tables() == Orders.RefundOrQuarantine(old(Tables()), i, frozen)
    {
      if i < |orders| && orders[i].ctxTx.Some? {
        var _ := UpdateStatusUnless(i, Terminal, PendingManualRecovery);
      } else {
        ScheduleRefund(i, frozen);
      }
    }

    // ---- POST /vcc-callback ------------------------------------------------------------------------------------

    method VccCallback(i: OrderId, result: VccResult, frozen: bool)
      modifies this`orders, this`keys, this`refunding
      ensures Tables() == Callback(old(Tables()), i, result, frozen)
      ensures old(Valid() && Assumed(Tables(), DoCallback(i, result, frozen))) ==> Valid()
    {
      hide Sound;
      StepSound(Tables(), DoCallback(i, result, frozen));
      if i >= |orders| || orders[i].status in Terminal { return; }
      match result {
        case Fulfilled(card) =>
          var r := orders[i];
          orders := orders[i := r.(status := Delivered, card := Some(card),
                                   world := r.world.(claims := r.world.claims + 1))];
          AddSpend(r.key, r.amount);
        case VccFailed =>
          var target := if orders[i].ctxTx.Some? then PendingManualRecovery else Failed;
          orders := orders[i := orders[i].(status := target)];
          RefundOrQuarantine(i, frozen);
      }
    }

    // ---- Approvals ------------------------------------------------------------------------------------------------

    /** UPDATE approval_requests ... WHERE id AND status = 'pending'. */
    method Decide(a: nat, decision: ApprovalStatus) returns (hit: bool)
      modifies this`approvals
      ensures hit == (a < |old(approvals)| && old(approvals)[a].status == ApprovalPending)
      ensures approvals == if hit then old(approvals)[a := old(approvals)[a].(status := decision)] else old(approvals)
    {
      hit := a < |approvals| && approvals[a].status == ApprovalPending;
      if hit { approvals := approvals[a := approvals[a].(status := decision)]; }
    }

    method Approve(a: nat, payBy: Option<nat>, builds: bool) returns (result: ApproveResult)
      modifies this`approvals, this`orders
      ensures result == ApproveOutcome(old(Tables()), a, builds)
      ensures Tables() == CommitApprove(old(Tables()), a, payBy, builds)
      ensures old(Valid()) ==> Valid()
    {
      hide Sound;
      StepSound(Tables(), DoApprove(a, payBy, builds));
      var before := approvals;
      if a >= |approvals| || approvals[a].expiresAt < now { return ApproveGone; }
      var hit := Decide(a, ApprovalApproved);
      if !hit { return ApproveGone; }
      if !builds {
        approvals := before;
        return ApproveThrew;
      }
      var i := approvals[a].order;
      if i >= |orders| || orders[i].status != AwaitingApproval {
        approvals := before;
        return OrderStateDrift;
      }
      orders := orders[i := orders[i].(status := PendingPayment, payBy := payBy)];
      return ApproveOk;
    }

    method Reject(a: nat) returns (hit: bool)
      modifies this`approvals, this`orders
      ensures Tables() == RejectApproval(old(Tables()), a)
      ensures old(Valid()) ==> Valid()
    {
      hide Sound;
      StepSound(Tables(), DoReject(a));
      hit := Decide(a, ApprovalRejected);
      if hit { var _ := UpdateStatus(approvals[a].order, {AwaitingApproval}, Rejected); }
    }

    /** One round of suspend's loop; the order UPDATE has no status guard. */
    method RejectForSuspension(k: KeyId, a: nat)
      requires a < |approvals|
      modifies this`approvals, this`orders
      ensures Tables() == SuspendRound(old(Tables()), k, a)
    {
      if approvals[a].key != k || approvals[a].status != ApprovalPending { return; }
      var i := approvals[a].order;
      approvals := approvals[a := approvals[a].(status := ApprovalRejected)];
      if i < |orders| { orders := orders[i := orders[i].(status := Rejected)]; }
    }

    /** Suspends the key, if it exists, and rejects every approval pending on it. */
    method Suspend(k: KeyId)
      modifies this`keys, this`approvals, this`orders
      ensures Tables() ==
              if k < |old(keys)| then SuspendRounds(SetSuspended(old(Tables()), k, true), k, |old(approvals)|)
                          else old(Tables())
      ensures old(Valid()) ==> Valid()
    {
      hide Sound;
      if k >= |keys| { return; }
      StepSound(Tables(), DoSetSuspended(k, true));
      keys := keys[k := keys[k].(suspended := true)];
      ghost var start := Tables();
      for a := 0 to |approvals|
        invariant |approvals| == |old(approvals)|
        invariant Tables() == SuspendRounds(start, k, a)
      {
        RejectForSuspension(k, a);
      }
      SuspendRoundsSound(start, k, |approvals|);
    }

    /** One round of the approval expiry job: compare-and-swap first, then the order. */
    method ExpireOne(a: nat)
      requires a < |approvals|
      modifies this`approvals, this`orders
      ensures Tables() == ExpireApproval(old(Tables()), a)
    {
      if approvals[a].expiresAt >= now { return; }
      var hit := Decide(a, ApprovalExpired);
      if hit { var _ := UpdateStatus(approvals[a].order, {AwaitingApproval}, Rejected); }
    }

    /** Expires every pending approval past its window. */
    method ExpireApprovalRequests()
      modifies this`approvals, this`orders
      ensures Tables() == ExpiryRounds(old(Tables()), |old(approvals)|)
      ensures old(Valid()) ==> Valid()
    {
      hide Sound;
      ghost var start := Tables();
      for a := 0 to |approvals|
        invariant |approvals| == |old(approvals)|
        invariant Tables() == ExpiryRounds(start, a)
      {
        ExpireOne(a);
      }
      ExpiryRoundsSound(start, |approvals|);
    }

    // ---- Jobs ---------------------------------------------------------------------------------------------------

    /** UPDATE orders SET status = 'expired' over the rows that are still pending and older than two hours. */
    method ExpireStaleOrders()
      modifies this`orders
      ensures Tables() == StaleRounds(old(Tables()), |old(orders)|)
      ensures old(Valid()) ==> Valid()
    {
      hide Sound;
      ghost var start := Tables();
      for i := 0 to |orders|
        invariant |orders| == |old(orders)|
        invariant Tables() == StaleRounds(start, i)
      {
        if orders[i].createdAt + StaleAfter < now { var _ := UpdateStatus(i, {PendingPayment}, Expired); }
      }
      StaleRoundsSound(start, |orders|);
    }

    /**
     * The SELECT of a job over the rows whose last update is old enough: those whose pipeline is unfinished and that
     * no payment is recorded for, or those that vcc has a job for.
     */
    method SelectRows(reconcile: bool, aged: OrderId -> bool) returns (ids: seq<OrderId>)
      ensures Selects(Tables(), ids, reconcile)
      ensures forall i :: i in ids <==>
                && 0 <= i < |orders| && aged(i)
                && if reconcile
                   then orders[i].status == Ordering && orders[i].ctxTx.None?
                        && !(orders[i].vccJob.Some? && orders[i].xlmSent && orders[i].vccNotified)
                   else orders[i].status in {PendingPayment, Ordering} && orders[i].vccJob.Some?
    {
      ids := [];
      for i := 0 to |orders|
        invariant Selects(Tables(), ids, reconcile) && forall x :: x in ids ==> x < i
        invariant forall x :: x in ids <==>
                    0 <= x < i && aged(x) && if reconcile then ReconcileFilter(orders[x]) else RecoverFilter(orders[x])
      {
        if aged(i) && (if reconcile then ReconcileFilter(orders[i]) else RecoverFilter(orders[i])) { ids := ids + [i]; }
      }
    }

    /** A job starts its pass over the selected rows; the mutex of runJobs lets no second one start. */
    method StartJob(reconcile: bool, aged: OrderId -> bool) returns (ids: seq<OrderId>)
      modifies this`job
      ensures Selects(old(Tables()), ids, reconcile) && Tables() == StartPass(old(Tables()), ids, reconcile)
      ensures old(Valid()) ==> Valid()
    {
      hide Sound;
      ids := SelectRows(reconcile, aged);
      StepSound(Tables(), DoStartPass(ids, reconcile));
      if job.Idle? { job := Pass(Tasks(orders, ids, reconcile), Ready); }
    }

    /** The next selected row, up to its first await. */
    method NextRow(timedOut: bool, frozen: bool)
      requires job.Pass? && job.at.Ready?
      modifies this`orders, this`job, this`refunding
      ensures Tables() == TakeTask(old(Tables()), timedOut, frozen)
      ensures old(Valid()) ==> Valid()
    {
      hide Sound;
      StepSound(Tables(), DoTakeTask(timedOut, frozen));
      if job.todo == [] {
        job := Idle;
        return;
      }
      var task := job.todo[0];
      job := Pass(job.todo[1..], Ready);
      match task {
        case Recover(i, row) => job := job.(at := RecoverPoll(i, row));
        case Reconcile(i, row) =>
          if !timedOut && row.attempt < MaxAttempts {
            ClaimRow(i, row);
          } else if row.vccJob.Some? {
            job := job.(at := HardFailPoll(i));
          } else {
            FailRow(i, frozen);
          }
      }
    }

    /** The compare-and-swap on the attempt counter as it was selected and, if it hit, the retry's first stretch. */
    method ClaimRow(i: OrderId, row: Order)
      requires job.Pass? && job.at.Ready?
      modifies this`orders, this`job
      ensures Tables() == ClaimAttempt(old(Tables()), i, row)
    {
      if i >= |orders| || orders[i].status != Ordering || orders[i].attempt != row.attempt { return; }
      orders := orders[i := orders[i].(attempt := orders[i].attempt + 1)];
      if row.vccJob.None? {
        job := job.(at := Invoice(i, row));
      } else {
        PayOrNotify(i, row, false);
      }
    }

    /** The hard failure: the refund is decided only if the guarded write hit the row. */
    method FailRow(i: OrderId, frozen: bool)
      modifies this`orders, this`refunding
      ensures Tables() == HardFail(old(Tables()), i, frozen)
    {
      var claimed := UpdateStatus(i, {Ordering}, Failed);
      if claimed { RefundOrQuarantine(i, frozen); }
    }

    /** With a vcc job: pay if the row as selected was not paid, and notify otherwise. */
    method PayOrNotify(i: OrderId, row: Order, hasUrl: bool)
      requires job.Pass?
      modifies this`orders, this`job
      ensures Tables() == AfterInvoice(old(Tables()), i, row, hasUrl)
    {
      if row.xlmSent {
        BeginNotify(i, row);
      } else if hasUrl {
        BeginSend(i, row);
      } else {
        job := job.(at := JobPoll(i, row));
      }
    }

    /** payCtxOrder is called. */
    method BeginSend(i: OrderId, row: Order)
      requires job.Pass?
      modifies this`orders, this`job
      ensures Tables() == StartSend(old(Tables()), i, row)
    {
      job := job.(at := Ready);
      if i >= |orders| { return; }
      orders := orders[i := orders[i].(world := orders[i].world.(ctxSends := orders[i].world.ctxSends + 1))];
      job := job.(at := Send(i, row));
    }

    /** notifyPaid is called unless the row as selected says it was. */
    method BeginNotify(i: OrderId, row: Order)
      requires job.Pass?
      modifies this`orders, this`job
      ensures Tables() == StartNotify(old(Tables()), i, row)
    {
      job := job.(at := Ready);
      if row.vccNotified || i >= |orders| { return; }
      orders := orders[i := orders[i].(world := orders[i].world.(notifySent := true))];
      job := job.(at := Notify(i));
    }

    /** An awaited call of the job returns. */
    method JobReturned(reply: JobReply, frozen: bool)
      requires job.Pass?
      modifies this`orders, this`job, this`refunding
      ensures Tables() == JobReplied(old(Tables()), reply, frozen)
      ensures old(Valid() && Assumed(Tables(), DoJobReply(reply, frozen))) ==> Valid()
    {
      hide Sound, InvoiceReplied, JobPollReplied, SendReplied, RecoverReplied;
      StepSound(Tables(), DoJobReply(reply, frozen));
      match job.at {
        case Ready =>
        case HardFailPoll(i) =>
          job := job.(at := Ready);
          if reply.VccNotInProgress? { FailRow(i, frozen); }
        case Invoice(i, row) => InvoiceReturned(i, row, reply);
        case JobPoll(i, row) => JobPollReturned(i, row, reply);
        case Send(i, row) => SendReturned(i, row, reply);
        case Notify(i) =>
          job := job.(at := Ready);
          if reply.Notified? && i < |orders| { orders := orders[i := orders[i].(vccNotified := true)]; }
        case RecoverPoll(i, row) => RecoverReturned(i, row, reply, frozen);
      }
    }

    method InvoiceReturned(i: OrderId, row: Order, reply: JobReply)
      requires job.Pass?
      modifies this`orders, this`job
      ensures Tables() == InvoiceReplied(old(Tables()), i, row, reply)
    {
      if !reply.Invoiced? || i >= |orders| {
        job := job.(at := Ready);
        return;
      }
      orders := orders[i := orders[i].(vccJob := Some(reply.job))];
      PayOrNotify(i, row, reply.hasUrl);
    }

    /** A job past its invoice was paid by an earlier run. */
    method JobPollReturned(i: OrderId, row: Order, reply: JobReply)
      requires job.Pass?
      modifies this`orders, this`job
      ensures Tables() == JobPollReplied(old(Tables()), i, row, reply)
    {
      if reply.StillInvoiced? {
        BeginSend(i, row);
      } else if reply.PastInvoice? && i < |orders| {
        orders := orders[i := orders[i].(xlmSent := true)];
        BeginNotify(i, row);
      } else {
        job := job.(at := Ready);
      }
    }

    /** The record of a payment, the park of an ambiguous one with its hash, or the retry left to a later pass. */
    method SendReturned(i: OrderId, row: Order, reply: JobReply)
      requires job.Pass?
      modifies this`orders, this`job
      ensures Tables() == SendReplied(old(Tables()), i, row, reply)
    {
      if reply.CtxPaid? && i < |orders| {
        orders := orders[i := orders[i].(xlmSent := true, ctxTx := reply.tx)];
        BeginNotify(i, row);
        return;
      }
      job := job.(at := Ready);
      if i >= |orders| { return; }
      if reply.CtxAmbiguous? {
        if reply.tx.Some? { orders := orders[i := orders[i].(status := Failed, ctxTx := reply.tx)]; }
        return;
      }
      var sends := orders[i].world.ctxSends;
      orders := orders[i := orders[i].(world := orders[i].world.(ctxSends := if sends > 0 then sends - 1 else 0))];
    }

    /** A failure vcc reports is written unless the row left its early statuses meanwhile. */
    method RecoverReturned(i: OrderId, row: Order, reply: JobReply, frozen: bool)
      requires job.Pass?
      modifies this`orders, this`job, this`refunding
      ensures Tables() == RecoverReplied(old(Tables()), i, row, reply, frozen)
    {
      job := job.(at := Ready);
      if !reply.VccReportsFailed? { return; }
      var target := if row.ctxTx.Some? then PendingManualRecovery else Failed;
      var claimed := UpdateStatus(i, {PendingPayment, Ordering}, target);
      if claimed { RefundOrQuarantine(i, frozen); }
    }
  }

  /** The suspend loop as a sequence of steps, so that runs with a suspension are runs of the state machine. */
  function SuspendRounds(s: State, k: KeyId, n: nat): State {
    if n == 0 then s else SuspendRound(SuspendRounds(s, k, n - 1), k, n - 1)
  }

  function ExpiryRounds(s: State, n: nat): State {
    if n == 0 then s else ExpireApproval(ExpiryRounds(s, n - 1), n - 1)
  }

  function StaleRounds(s: State, n: nat): State {
    if n == 0 then s else ExpireStale(StaleRounds(s, n - 1), n - 1)
  }

  lemma {:induction false} SuspendRoundsSound(s: State, k: KeyId, n: nat)
    ensures Sound(s) ==> Sound(SuspendRounds(s, k, n))
  {
    hide Sound;
    if n > 0 {
      SuspendRoundsSound(s, k, n - 1);
      StepSound(SuspendRounds(s, k, n - 1), DoSuspendRound(k, n - 1));
    }
  }

  lemma {:induction false} ExpiryRoundsSound(s: State, n: nat)
    ensures Sound(s) ==> Sound(ExpiryRounds(s, n))
  {
    hide Sound;
    if n > 0 {
      ExpiryRoundsSound(s, n - 1);
      StepSound(ExpiryRounds(s, n - 1), DoExpireApproval(n - 1));
    }
  }

  lemma {:induction false} StaleRoundsSound(s: State, n: nat)
    ensures Sound(s) ==> Sound(StaleRounds(s, n))
  {
    hide Sound;
    if n > 0 {
      StaleRoundsSound(s, n - 1);
      StepSound(StaleRounds(s, n - 1), DoExpireStale(n - 1));
    }
  }

  /** After the suspend loop exactly the approvals pending on the key are rejected. */
  lemma {:induction false} SuspendRejectsPending(s: State, k: KeyId, n: nat, a: nat)
    requires n <= |s.approvals| && a < |s.approvals|
    ensures var t := SuspendRounds(s, k, n);
            && |t.approvals| == |s.approvals|
            && t.approvals[a] ==
                 if a < n && s.approvals[a].key == k && s.approvals[a].status == ApprovalPending
                 then s.approvals[a].(status := ApprovalRejected) else s.approvals[a]
  {
    if n > 0 {
      SuspendRejectsPending(s, k, n - 1, a);
      SuspendRejectsPending(s, k, n - 1, n - 1);
    }
  }

  /** After the expiry loop exactly the pending approvals past their window are expired. */
  lemma {:induction false} ExpiryExpiresPending(s: State, n: nat, a: nat)
    requires n <= |s.approvals| && a < |s.approvals|
    ensures var t := ExpiryRounds(s, n);
            && |t.approvals| == |s.approvals| && t.now == s.now
            && t.approvals[a] ==
                 if a < n && s.approvals[a].expiresAt < s.now && s.approvals[a].status == ApprovalPending
                 then s.approvals[a].(status := ApprovalExpired) else s.approvals[a]
  {
    if n > 0 {
      ExpiryExpiresPending(s, n - 1, a);
      ExpiryExpiresPending(s, n - 1, n - 1);
    }
  }

  /** A suspended key is left with no order awaiting approval whose approval is its own. */
  lemma SuspendLeavesNoneAwaiting(s: State, k: KeyId, a: nat)
    requires Sound(s) && a < |s.approvals| && s.approvals[a].key == k
    ensures var t := SuspendRounds(s, k, |s.approvals|);
            && Sound(t) && |t.approvals| == |s.approvals|
            && t.approvals[a].order < |t.orders| && t.orders[t.approvals[a].order].status != AwaitingApproval
  {
    var t := SuspendRounds(s, k, |s.approvals|);
    SuspendRoundsSound(s, k, |s.approvals|);
    SuspendRejectsPending(s, k, |s.approvals|, a);
    assert Coupled(t.orders, t.approvals[a]);
  }

  /** After the expiry of stale orders exactly the pending ones past their window are expired. */
  lemma {:induction false} StaleExpiresPending(s: State, n: nat, i: OrderId)
    requires n <= |s.orders| && i < |s.orders|
    ensures var t := StaleRounds(s, n);
            && |t.orders| == |s.orders| && t.now == s.now
            && t.orders[i] ==
                 if i < n && s.orders[i].status == PendingPayment && s.orders[i].createdAt + StaleAfter < s.now
                 then s.orders[i].(status := Expired) else s.orders[i]
  {
    if n > 0 {
      StaleExpiresPending(s, n - 1, i);
      StaleExpiresPending(s, n - 1, n - 1);
    }
  }
}
