/**
 * What each handler and job answers on each kind of input, row by row: which reply delivers, fails, refunds,
 * postpones or sends, and what is written then.
 */
module Answers {
  import opened Common
  import opened Policy
  import opened Orders
  import opened OrderInvariant
  import opened OrderSafety

  /** All rows but one are as they were. */
  predicate OnlyRow(orders: seq<Order>, orders': seq<Order>, i: OrderId) {
    |orders'| == |orders| && forall j :: 0 <= j < |orders| && j != i ==> orders'[j] == orders[j]
  }

  // ---- POST /orders ----------------------------------------------------------------------------------------------

  /** A request waits exactly for an amount between a cent and ten thousand dollars, with the key as it is then. */
  lemma ArriveAnswers(s: State, rid: nat, k: KeyId, amount: nat)
    requires rid !in s.creating && k < |s.keys|
    ensures var t := Next(s, DoArriveCreate(rid, k, amount));
            && (rid in t.creating <==> 1 <= amount <= 10000 * 100)
            && (rid in t.creating ==>
                  t.creating[rid].key == k && t.creating[rid].amount == amount && t.creating[rid].snapshot == s.keys[k])
            && t.orders == s.orders && t.keys == s.keys
  {}

  /** The limit leaves no room, by the settled spend of the snapshot and the orders in flight now. */
  predicate NoRoom(s: State, req: CreateRequest) {
    req.snapshot.spendLimit.Some? &&
    req.snapshot.spendLimit.value < req.snapshot.settled + Total(InFlight(req.key), s.orders) + req.amount
  }

  /** Limit first, then the policy of the key as it is now, then the payment instructions. */
  lemma CreateAnswers(s: State, rid: nat, builds: bool)
    requires rid in s.creating && s.creating[rid].key < |s.keys|
    ensures var req := s.creating[rid];
            var today := Total(Daily(req.key, DayOf(s.now)), s.orders);
            var policy := CheckPolicy(s.keys[req.key], today, req.amount, s.now);
            var answer := CreateDecision(s, rid, builds);
            && (answer == SpendLimitExceeded <==> NoRoom(s, req))
            && (answer.PolicyBlocked? <==> !NoRoom(s, req) && policy.Blocked?)
            && (answer.PolicyBlocked? ==> answer.rule == policy.rule)
            && (answer == AwaitsApproval <==> !NoRoom(s, req) && policy == PendingApproval)
            && (answer == Payable <==> !NoRoom(s, req) && policy == Approved && builds)
            && (answer == InvalidPayment <==> !NoRoom(s, req) && policy == Approved && !builds)
  {}

  /** An order that needs no approval starts out pending with its payment deadline and without any trace of payment. */
  lemma PayableWrites(s: State, rid: nat, payBy: Option<nat>, refundable: bool, builds: bool)
    requires rid in s.creating && CreateDecision(s, rid, builds) == Payable
    ensures var t := Next(s, DoCommitCreate(rid, payBy, refundable, builds));
            && |t.orders| == |s.orders| + 1 && t.orders[..|s.orders|] == s.orders && t.approvals == s.approvals
            && rid !in t.creating
            && Placed(t.orders[|s.orders|], s.creating[rid], s.now, PendingPayment, payBy, refundable)
  {}

  /** One over the threshold waits, and its approval is open for two hours. */
  lemma AwaitingWrites(s: State, rid: nat, payBy: Option<nat>, refundable: bool, builds: bool)
    requires rid in s.creating && CreateDecision(s, rid, builds) == AwaitsApproval
    ensures var t, req := Next(s, DoCommitCreate(rid, payBy, refundable, builds)), s.creating[rid];
            && |t.orders| == |s.orders| + 1 && t.orders[..|s.orders|] == s.orders
            && |t.approvals| == |s.approvals| + 1 && t.approvals[..|s.approvals|] == s.approvals
            && rid !in t.creating
            && Placed(t.orders[|s.orders|], req, s.now, AwaitingApproval, None, refundable)
            && t.approvals[|s.approvals|] ==
               Approval(req.key, |s.orders|, req.amount, s.now + 2 * 60 * 60, ApprovalPending)
  {}

  predicate Placed(r: Order, req: CreateRequest, now: nat, status: Status, payBy: Option<nat>, refundable: bool) {
    && r.key == req.key && r.amount == req.amount && r.createdAt == now && r.status == status && r.payBy == payBy
    && r.refundable == refundable && r.card.None? && r.deployHash.None? && Untouched(r)
  }

  /** Any other answer writes no order and no approval. */
  lemma RefusedWritesNothing(s: State, rid: nat, payBy: Option<nat>, refundable: bool, builds: bool)
    requires CreateDecision(s, rid, builds) !in {Payable, AwaitsApproval}
    ensures var t := Next(s, DoCommitCreate(rid, payBy, refundable, builds));
            t.orders == s.orders && t.approvals == s.approvals && t.keys == s.keys
  {}

  /** Counted against the limit are exactly the orders that can still move. */
  lemma InFlightMoves(status: Status)
    ensures IsInFlight(status) <==> exists next :: StatusEdge(status, next)
    ensures IsInFlight(status) <==> !IsFinal(status)
  {
    assert StatusEdge(AwaitingApproval, Rejected) && StatusEdge(PendingPayment, Expired);
    assert StatusEdge(Ordering, Failed) && StatusEdge(RefundPending, Refunded);
  }

  // ---- Suspension ------------------------------------------------------------------------------------------------

  lemma SuspendAnswers(s: State, k: KeyId, flag: bool)
    requires k < |s.keys|
    ensures var t := Next(s, DoSetSuspended(k, flag));
            && |t.keys| == |s.keys| && t.keys[k].suspended == flag && t.keys[k] == s.keys[k].(suspended := flag)
            && (forall j :: 0 <= j < |s.keys| && j != k ==> t.keys[j] == s.keys[j])
            && t.orders == s.orders && t.approvals == s.approvals
  {}

  /** While a key is suspended no request of its creates an order, not even one that arrived before. */
  lemma SuspendedCreatesNothing(s: State, rid: nat, payBy: Option<nat>, refundable: bool, builds: bool)
    requires rid in s.creating && s.creating[rid].key < |s.keys| && s.keys[s.creating[rid].key].suspended
    ensures Next(s, DoCommitCreate(rid, payBy, refundable, builds)).orders == s.orders
  {
    var req := s.creating[rid];
    NotBlockedIff(s.keys[req.key], Total(Daily(req.key, DayOf(s.now)), s.orders), req.amount, s.now);
  }

  // ---- Payment window and verify-payment -------------------------------------------------------------------------

  /** A pending order expires in the job exactly when it is more than two hours old. */
  lemma StaleAnswers(s: State, i: OrderId)
    requires i < |s.orders|
    ensures var t, r := Next(s, DoExpireStale(i)), s.orders[i];
            && OnlyRow(s.orders, t.orders, i)
            && t.orders[i] == (if r.status == PendingPayment && s.now > r.createdAt + 2 * 60 * 60
                               then r.(status := Expired) else r)
  {}

  /**
   * A payable order's request waits for the node exactly before the payment deadline and with a hash no other order
   * carries; from the deadline on the order expires instead.
   */
  lemma BeginVerifyAnswers(s: State, vid: nat, i: OrderId, hash: Hash, checksPass: bool)
    requires vid !in s.verifying && i < |s.orders|
    ensures var t, r := Next(s, DoVerifyBegin(vid, i, hash, checksPass)), s.orders[i];
            var payable := checksPass && r.status == PendingPayment;
            var late := r.payBy.Some? && s.now >= r.payBy.value;
            && OnlyRow(s.orders, t.orders, i)
            && t.orders[i] == (if payable && late then r.(status := Expired) else r)
            && (vid in t.verifying <==>
                  payable && !late
                  && forall j :: 0 <= j < |s.orders| && j != i ==> s.orders[j].deployHash != Some(hash))
            && (vid in t.verifying ==> t.verifying[vid] == VerifyRequest(i, hash))
  {}

  /** A reply ends its request's wait; unless it claims the order it does nothing else. */
  lemma VerifyReplyAnswers(s: State, vid: nat, node: NodeReply)
    requires vid in s.verifying
    ensures var t := Next(s, DoVerifyReply(vid, node));
            && t.verifying == s.verifying - {vid}
            && (!Claims(s, DoVerifyReply(vid, node), s.verifying[vid].order) ==> t == s.(verifying := t.verifying))
  {}

  lemma EnterOrderingAnswers(s: State, i: OrderId)
    requires i < |s.orders|
    ensures var t, r := Next(s, DoEnterOrdering(i)), s.orders[i];
            && OnlyRow(s.orders, t.orders, i) && t.job == s.job && t.refunding == s.refunding
            && t.orders[i] == if r.status == PendingPayment then r.(status := Ordering) else r
  {}

  // ---- Refunds ---------------------------------------------------------------------------------------------------

  /** A send that landed refunds the order under its hash; a failed one leaves it for review with the first hash. */
  lemma RefundReplyAnswers(s: State, i: OrderId, reply: RefundReply)
    requires i in s.refunding && i < |s.orders|
    ensures var t, r := Next(s, DoRefundReply(i, reply)), s.orders[i];
            && OnlyRow(s.orders, t.orders, i) && t.refunding == s.refunding - {i}
            && (reply.RefundLanded? ==> t.orders[i] == r.(status := Refunded, refundTx := Some(reply.tx)))
            && (reply.RefundFailed? ==>
                  t.orders[i] == if r.refundTx.None? then r.(refundTx := reply.seen) else r)
  {}

  /** What a failure makes of an order: failed where paid or frozen, else waiting for its refund. */
  predicate FailedAs(s: State, t: State, i: OrderId, target: Status, frozen: bool)
    requires i < |s.orders|
  {
    var r := s.orders[i];
    var refunds := r.ctxTx.None? && !frozen;
    && OnlyRow(s.orders, t.orders, i)
    && t.orders[i].status == (if refunds then RefundPending else target)
    && t.orders[i].ctxTx == r.ctxTx && t.orders[i].card == r.card && t.orders[i].refundTx == r.refundTx
    && t.refunding == (if refunds && r.refundable then s.refunding + {i} else s.refunding)
    && t.orders[i].world == RefundsCounted(r.world, if refunds && r.refundable then 1 else 0)
  }

  function RefundsCounted(w: World, sends: nat): World { w.(refundSends := w.refundSends + sends) }

  /**
   * On a row of any status: a paid one is quarantined unless it is terminal; an unpaid one waits for its refund unless
   * frozen or already there, and a send starts, and is counted, exactly if there is a sender.
   */
  lemma RefundDecisionAnswers(s: State, i: OrderId, frozen: bool)
    requires i < |s.orders|
    ensures var t, r := RefundOrQuarantine(s, i, frozen), s.orders[i];
            var terminal := {Delivered, Failed, Refunded, RefundPending, PendingManualRecovery};
            var quarantines := r.ctxTx.Some? && r.status !in terminal;
            var refunds := r.ctxTx.None? && !frozen && r.status !in {RefundPending, Refunded};
            && (!quarantines && !refunds ==> t == s)
            && (quarantines ==> OnlyRow(s.orders, t.orders, i) && t.refunding == s.refunding
                                && t.orders[i] == r.(status := PendingManualRecovery))
            && (refunds ==> OnlyRow(s.orders, t.orders, i)
                            && t.refunding == (if r.refundable then s.refunding + {i} else s.refunding)
                            && t.orders[i] == r.(status := RefundPending,
                                                 world := RefundsCounted(r.world, if r.refundable then 1 else 0)))
  {}

  lemma FailureAnswers(s: State, i: OrderId, target: Status, frozen: bool)
    requires i < |s.orders| && target in {Failed, PendingManualRecovery}
    ensures var t := RefundOrQuarantine(SetRow(s, i, s.orders[i].(status := target)), i, frozen);
            FailedAs(s, t, i, target, frozen) && t.job == s.job
  {}

  // ---- VCC callback ----------------------------------------------------------------------------------------------

  /** Delivered with the card of the callback, failed, or left alone once terminal. */
  lemma CallbackAnswers(s: State, i: OrderId, result: VccResult, frozen: bool)
    requires i < |s.orders|
    ensures var t, r := Next(s, DoCallback(i, result, frozen)), s.orders[i];
            && (r.status in {Delivered, Failed, Refunded, RefundPending, PendingManualRecovery} ==> t == s)
            && (r.status !in {Delivered, Failed, Refunded, RefundPending, PendingManualRecovery} ==>
                  && (result.Fulfilled? ==>
                        && OnlyRow(s.orders, t.orders, i) && t.refunding == s.refunding
                        && t.orders[i].status == Delivered && t.orders[i].card == Some(result.card)
                        && t.orders[i].deployHash == r.deployHash)
                  && (result.VccFailed? ==>
                        FailedAs(s, t, i, if r.ctxTx.Some? then PendingManualRecovery else Failed, frozen)))
  {
    hide RefundOrQuarantine;
    FailureAnswers(s, i, Failed, frozen);
    FailureAnswers(s, i, PendingManualRecovery, frozen);
  }

  // ---- Time and restarts -----------------------------------------------------------------------------------------

  /** Time changes no table, and a restart forgets every suspended handler and no row. */
  lemma TickAndCrashAnswers(s: State, d: nat)
    ensures Next(s, Tick(d)) == s.(now := s.now + d)
    ensures var t := Next(s, Crash);
            && t.orders == s.orders && t.approvals == s.approvals && t.keys == s.keys && t.now == s.now
            && t.creating == map[] && t.verifying == map[] && t.job == Idle && t.refunding == {}
  {}

  // ---- The jobs --------------------------------------------------------------------------------------------------

  /** The tables as they were, and the job ready for its next row. */
  predicate Untroubled(s: State, t: State) {
    t.orders == s.orders && t.refunding == s.refunding && t.keys == s.keys && t.job.Pass? && t.job.at == Ready
  }

  /** Rows a pass may select: reconciled are unpaid orders with work left, recovered are early ones with a vcc job. */
  predicate Selectable(r: Order, reconcile: bool) {
    if reconcile then
      r.status == Ordering && r.ctxTx.None? && !(r.vccJob.Some? && r.xlmSent && r.vccNotified)
    else r.vccJob.Some? && (r.status == PendingPayment || r.status == Ordering)
  }

  predicate Distinct(ids: seq<OrderId>) {
    forall j, k :: 0 <= j < |ids| && 0 <= k < |ids| && ids[j] == ids[k] ==> j == k
  }

  /** A pass starts only while none is under way, takes its rows in order as they are then, and ends behind the last. */
  lemma PassAnswers(s: State, ids: seq<OrderId>, reconcile: bool, timedOut: bool, frozen: bool)
    requires forall j :: 0 <= j < |ids| ==> ids[j] < |s.orders|
    ensures var t := Next(s, DoStartPass(ids, reconcile));
            var starts :=
              s.job == Idle && Distinct(ids) && forall j :: 0 <= j < |ids| ==> Selectable(s.orders[ids[j]], reconcile);
            && (!starts ==> t == s)
            && (starts ==>
                  && t == s.(job := t.job) && t.job.Pass? && t.job.at == Ready && |t.job.todo| == |ids|
                  && forall j :: 0 <= j < |ids| ==>
                       t.job.todo[j] ==
                       if reconcile then Reconcile(ids[j], s.orders[ids[j]]) else Recover(ids[j], s.orders[ids[j]]))
    ensures s.job == Pass([], Ready) ==> Next(s, DoTakeTask(timedOut, frozen)) == s.(job := Idle)
  {}

  /** The reconciler fails an order only when vcc says that its job is not in progress; any other reply postpones. */
  lemma HardFailPollAnswers(s: State, i: OrderId, reply: JobReply, frozen: bool)
    requires s.job.Pass? && s.job.at == HardFailPoll(i)
    ensures var t := Next(s, DoJobReply(reply, frozen));
            && (reply != VccNotInProgress || i >= |s.orders| || s.orders[i].status != Ordering ==> Untroubled(s, t))
            && (reply == VccNotInProgress && i < |s.orders| && s.orders[i].status == Ordering ==>
                  && FailedAs(s, t, i, Failed, frozen) && t.orders[i].status != Ordering
                  && t.job.Pass? && t.job.at == Ready)
  {
    hide RefundOrQuarantine;
    var s1 := MoveTo(s, Ready);
    if i < |s.orders| { FailureAnswers(s1, i, Failed, frozen); }
  }

  /** The recovery job fails an order only when vcc reports it failed, and only while it is early. */
  lemma RecoverPollAnswers(s: State, i: OrderId, row: Order, reply: JobReply, frozen: bool)
    requires s.job.Pass? && s.job.at == RecoverPoll(i, row)
    ensures var t := Next(s, DoJobReply(reply, frozen));
            var fails :=
              reply == VccReportsFailed && i < |s.orders| && s.orders[i].status in {PendingPayment, Ordering};
            && (!fails ==> Untroubled(s, t))
            && (fails ==> FailedAs(s, t, i, if row.ctxTx.Some? then PendingManualRecovery else Failed, frozen)
                          && t.job.Pass? && t.job.at == Ready)
  {
    hide RefundOrQuarantine;
    var s1 := MoveTo(s, Ready);
    if i < |s.orders| {
      FailureAnswers(s1, i, Failed, frozen);
      FailureAnswers(s1, i, PendingManualRecovery, frozen);
    }
  }

  /** The row after one more payment was started for it. */
  predicate SendStarted(r: Order, r': Order) { r' == r.(world := r.world.(ctxSends := r.world.ctxSends + 1)) }

  /** The row is written as given, and notifyPaid is called unless it was when the row was selected. */
  predicate Notifies(s: State, t: State, i: OrderId, r: Order, row: Order)
    requires i < |s.orders|
  {
    && OnlyRow(s.orders, t.orders, i) && t.refunding == s.refunding && t.job.Pass?
    && t.job.at == (if row.vccNotified then Ready else Notify(i))
    && t.orders[i] == if row.vccNotified then r else r.(world := r.world.(notifySent := true))
  }

  /** An invoice is recorded; it is paid at once if it names a payment URL, and asked for one otherwise. */
  lemma InvoiceAnswers(s: State, i: OrderId, row: Order, reply: JobReply, frozen: bool)
    requires s.job.Pass? && s.job.at == Invoice(i, row) && i < |s.orders|
    ensures var t := Next(s, DoJobReply(reply, frozen));
            && (!reply.Invoiced? ==> Untroubled(s, t))
            && (reply.Invoiced? ==>
                  && var r := s.orders[i].(vccJob := Some(reply.job));
                  && OnlyRow(s.orders, t.orders, i) && t.refunding == s.refunding && t.job.Pass?
                  && (row.xlmSent ==> Notifies(s, t, i, r, row))
                  && (!row.xlmSent && reply.hasUrl ==> SendStarted(r, t.orders[i]) && t.job.at == Send(i, row))
                  && (!row.xlmSent && !reply.hasUrl ==> t.orders[i] == r && t.job.at == JobPoll(i, row)))
  {}

  /** A job still at its invoice is paid; one past it was paid before, is marked so and never paid again here. */
  lemma JobPollAnswers(s: State, i: OrderId, row: Order, reply: JobReply, frozen: bool)
    requires s.job.Pass? && s.job.at == JobPoll(i, row) && i < |s.orders|
    ensures var t, r := Next(s, DoJobReply(reply, frozen)), s.orders[i];
            && (reply != StillInvoiced && reply != PastInvoice ==> Untroubled(s, t))
            && (reply == StillInvoiced ==>
                  && OnlyRow(s.orders, t.orders, i) && SendStarted(r, t.orders[i])
                  && t.job.Pass? && t.job.at == Send(i, row))
            && (reply == PastInvoice ==> Notifies(s, t, i, r.(xlmSent := true), row))
  {}

  /** Paid: recorded under its hash. Ambiguous: parked with its hash, without one left to a retry. Else: unsent. */
  lemma SendAnswers(s: State, i: OrderId, row: Order, reply: JobReply, frozen: bool)
    requires s.job.Pass? && s.job.at == Send(i, row) && i < |s.orders|
    ensures var t, r := Next(s, DoJobReply(reply, frozen)), s.orders[i];
            && (reply.CtxPaid? ==> Notifies(s, t, i, r.(xlmSent := true, ctxTx := reply.tx), row))
            && (reply.CtxAmbiguous? && reply.tx.None? ==> Untroubled(s, t))
            && (reply.CtxAmbiguous? && reply.tx.Some? ==>
                  && OnlyRow(s.orders, t.orders, i) && t.refunding == s.refunding && t.job.Pass? && t.job.at == Ready
                  && t.orders[i] == r.(status := Failed, ctxTx := reply.tx))
            && (!reply.CtxPaid? && !reply.CtxAmbiguous? ==>
                  && OnlyRow(s.orders, t.orders, i) && t.refunding == s.refunding && t.job.Pass? && t.job.at == Ready
                  && (r.world.ctxSends > 0 ==> SendStarted(t.orders[i], r)))
  {}

  lemma NotifyAnswers(s: State, i: OrderId, reply: JobReply, frozen: bool)
    requires s.job.Pass? && s.job.at == Notify(i) && i < |s.orders|
    ensures var t := Next(s, DoJobReply(reply, frozen));
            && OnlyRow(s.orders, t.orders, i) && t.refunding == s.refunding && t.job.Pass? && t.job.at == Ready
            && t.orders[i] == if reply == Notified then s.orders[i].(vccNotified := true) else s.orders[i]
  {}

  /**
   * A selected row: past its time or its three attempts it is failed, after a poll if vcc has a job; else its retry
   * is claimed if nobody else was there.
   */
  lemma RowAnswers(s: State, i: OrderId, row: Order, timedOut: bool, frozen: bool)
    requires s.job.Pass? && s.job.at == Ready && s.job.todo != [] && s.job.todo[0] == Reconcile(i, row)
    requires i < |s.orders|
    ensures var t, r := Next(s, DoTakeTask(timedOut, frozen)), s.orders[i];
            var over := timedOut || row.attempt >= 3;
            var mine := r.status == Ordering && r.attempt == row.attempt;
            && t.job.Pass? && t.job.todo == s.job.todo[1..]
            && (over && row.vccJob.Some? ==>
                  t.orders == s.orders && t.refunding == s.refunding && t.job.at == HardFailPoll(i))
            && (over && row.vccJob.None? && r.status == Ordering ==>
                  FailedAs(s, t, i, Failed, frozen) && t.job.at == Ready)
            && (over && row.vccJob.None? && r.status != Ordering ==> Untroubled(s, t))
            && (!over && !mine ==> Untroubled(s, t))
            && (!over && mine ==> RetryClaimed(s, t, i, row))
  {
    hide RefundOrQuarantine, ClaimAttempt, RetryClaimed;
    var s1 := s.(job := Pass(s.job.todo[1..], Ready));
    FailureAnswers(s1, i, Failed, frozen);
    ClaimAnswers(s1, i, row);
    RetryIgnoresJob(s, s1, ClaimAttempt(s1, i, row), i, row);
  }

  lemma ClaimAnswers(s: State, i: OrderId, row: Order)
    requires s.job.Pass? && i < |s.orders|
    ensures var t, r := ClaimAttempt(s, i, row), s.orders[i];
            var mine := r.status == Ordering && r.attempt == row.attempt;
            && (!mine ==> t == s)
            && (mine ==> RetryClaimed(s, t, i, row) && t.job.todo == s.job.todo)
  {}

  lemma RetryIgnoresJob(s: State, s1: State, t: State, i: OrderId, row: Order)
    requires i < |s.orders| && s1.orders == s.orders && s1.refunding == s.refunding
    ensures RetryClaimed(s1, t, i, row) <==> RetryClaimed(s, t, i, row)
  {}

  /** One attempt more, and on to whatever the row as selected still lacks: its invoice, its payment, its notice. */
  predicate RetryClaimed(s: State, t: State, i: OrderId, row: Order)
    requires i < |s.orders|
  {
    var r := s.orders[i].(attempt := s.orders[i].attempt + 1);
    && OnlyRow(s.orders, t.orders, i) && t.refunding == s.refunding && t.job.Pass?
    && (row.vccJob.None? ==> t.orders[i] == r && t.job.at == Invoice(i, row))
    && (row.vccJob.Some? && !row.xlmSent ==> t.orders[i] == r && t.job.at == JobPoll(i, row))
    && (row.vccJob.Some? && row.xlmSent ==> Notifies(s, t, i, r, row))
  }

  lemma RecoverRowAnswers(s: State, i: OrderId, row: Order, timedOut: bool, frozen: bool)
    requires s.job.Pass? && s.job.at == Ready && s.job.todo != [] && s.job.todo[0] == Recover(i, row)
    ensures var t := Next(s, DoTakeTask(timedOut, frozen));
            t.orders == s.orders && t.refunding == s.refunding && t.job == Pass(s.job.todo[1..], RecoverPoll(i, row))
  {}

  // ---- When a refund starts --------------------------------------------------------------------------------------

  /** The step reports or decides that the order failed, and does so while the platform is not frozen. */
  predicate FailsUnfrozen(s: State, step: Step, i: OrderId) {
    || (step.DoCallback? && step.order == i && step.result.VccFailed? && !step.frozen)
    || (step.DoJobReply? && s.job.Pass? && s.job.at == HardFailPoll(i)
        && step.reply == VccNotInProgress && !step.frozen)
    || (step.DoJobReply? && s.job.Pass? && s.job.at.RecoverPoll? && s.job.at.id == i
        && step.reply == VccReportsFailed && !step.frozen)
    || (step.DoTakeTask? && s.job.Pass? && s.job.at == Ready && s.job.todo != [] && s.job.todo[0].Reconcile?
        && s.job.todo[0].id == i && s.job.todo[0].row.vccJob.None?
        && (step.timedOut || s.job.todo[0].row.attempt >= 3) && !step.frozen)
  }

  /** No other step touches the sends under way, except to forget them or to end one. */
  lemma OthersStartNothing(s: State, step: Step, i: OrderId)
    requires !step.DoCallback? && !step.DoJobReply? && !step.DoTakeTask?
    ensures i in Next(s, step).refunding ==> i in s.refunding
  {}

  lemma CallbackStartsIff(s: State, step: Step, i: OrderId)
    requires Inv(s) && Assumed(s, step) && step.DoCallback?
    ensures StartsRefund(s, step, i) <==> FailsUnfrozen(s, step, i) && Refundable(s, i)
  {
    if step.order < |s.orders| {
      assert RowOk(s.orders[step.order]);
      CallbackAnswers(s, step.order, step.result, step.frozen);
      RefundingIsPending(s, i);
    }
  }

  /** Only an order in the pipeline with a sender to refund and no CTX payment on record is refunded. */
  predicate Refundable(s: State, i: OrderId) {
    i < |s.orders| && s.orders[i].status == Ordering && s.orders[i].ctxTx.None? && s.orders[i].refundable
  }

  lemma RefundingIsPending(s: State, i: OrderId)
    requires Inv(s)
    ensures i in s.refunding ==> !Refundable(s, i)
  {}

  lemma TaskStartsIff(s: State, step: Step, i: OrderId)
    requires Inv(s) && step.DoTakeTask?
    ensures StartsRefund(s, step, i) <==> FailsUnfrozen(s, step, i) && Refundable(s, i)
  {
    RefundingIsPending(s, i);
    if s.job.Pass? && s.job.at == Ready && s.job.todo != [] {
      assert TaskOk(s.orders, s.job.todo[0]);
      hide Next, TakeTask, Inv;
      match s.job.todo[0]
      case Reconcile(j, row) => RowAnswers(s, j, row, step.timedOut, step.frozen);
      case Recover(j, row) => RecoverRowAnswers(s, j, row, step.timedOut, step.frozen);
    }
  }

  /** The two polls after which a job may fail an order. */
  lemma PollStartsIff(s: State, step: Step, i: OrderId)
    requires Inv(s) && step.DoJobReply? && s.job.Pass? && (s.job.at.HardFailPoll? || s.job.at.RecoverPoll?)
    ensures StartsRefund(s, step, i) <==> FailsUnfrozen(s, step, i) && Refundable(s, i)
  {
    RefundingIsPending(s, i);
    JobIsAt(s);
    hide Next, JobReplied, Inv;
    match s.job.at
    case HardFailPoll(j) => HardFailPollAnswers(s, j, step.reply, step.frozen);
    case RecoverPoll(j, row) => RecoverPollAnswers(s, j, row, step.reply, step.frozen);
  }

  lemma ReplyStartsIff(s: State, step: Step, i: OrderId)
    requires Inv(s) && step.DoJobReply?
    ensures StartsRefund(s, step, i) <==> FailsUnfrozen(s, step, i) && Refundable(s, i)
  {
    if s.job.Pass? && (s.job.at.HardFailPoll? || s.job.at.RecoverPoll?) {
      PollStartsIff(s, step, i);
    } else if s.job.Pass? && !s.job.at.Ready? {
      JobIsAt(s);
      hide Next, JobReplied, Inv, Refundable;
      match s.job.at
      case Invoice(j, row) => InvoiceAnswers(s, j, row, step.reply, step.frozen);
      case JobPoll(j, row) => JobPollAnswers(s, j, row, step.reply, step.frozen);
      case Send(j, row) => SendAnswers(s, j, row, step.reply, step.frozen);
      case Notify(j) => NotifyAnswers(s, j, step.reply, step.frozen);
    }
  }

  /**
   * In every reachable state a step starts a refund exactly when it finds that a refundable order failed: by a failed
   * callback, a hard failure that vcc does not contradict, or a failure vcc reports; and the platform is not frozen.
   */
  lemma RefundStartsIff(s: State, steps: seq<Step>, step: Step, i: OrderId)
    requires Fresh(s) && Run(s, steps) && Assumed(Exec(s, steps), step)
    ensures var t := Exec(s, steps); StartsRefund(t, step, i) <==> FailsUnfrozen(t, step, i) && Refundable(t, i)
  {
    hide Inv, Next, FailsUnfrozen, Refundable;
    RunInv(s, steps);
    var t := Exec(s, steps);
    if step.DoCallback? {
      CallbackStartsIff(t, step, i);
    } else if step.DoTakeTask? {
      TaskStartsIff(t, step, i);
    } else if step.DoJobReply? {
      ReplyStartsIff(t, step, i);
    } else {
      OthersStartNothing(t, step, i);
      OthersFailNothing(t, step, i);
    }
  }

  lemma OthersFailNothing(s: State, step: Step, i: OrderId)
    requires !step.DoCallback? && !step.DoJobReply? && !step.DoTakeTask?
    ensures !FailsUnfrozen(s, step, i)
  {}
}
