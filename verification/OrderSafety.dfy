/** What the invariant says of payment claims, approvals, CTX payments and refunds, over whole runs. */
module OrderSafety {
  import opened Common
  import opened Policy
  import opened Orders
  import opened OrderInvariant

  // ---- A delivered order is final ----------------------------------------------------------------------

  lemma {:induction false} RunGood(s: State, steps: seq<Step>)
    requires Inv(s) && Run(s, steps)
    ensures Inv(Exec(s, steps)) && |Exec(s, steps).orders| >= |s.orders|
  {
    if steps != [] {
      RunGood(s, steps[..|steps| - 1]);
      NextGood(Exec(s, steps[..|steps| - 1]), steps[|steps| - 1]);
    }
  }

  predicate IsFinal(status: Status) {
    status in {Delivered, Failed, Refunded, PendingManualRecovery, Expired, Rejected}
  }

  /** A final status stays through every further run, and a delivered order keeps its card and deploy hash. */
  lemma {:induction false} FinalStays(s: State, steps: seq<Step>, i: OrderId)
    requires Inv(s) && Run(s, steps) && i < |s.orders| && IsFinal(s.orders[i].status)
    ensures i < |Exec(s, steps).orders| && Exec(s, steps).orders[i].status == s.orders[i].status
    ensures var r := Exec(s, steps).orders[i];
            s.orders[i].status == Delivered ==> r.card == s.orders[i].card && r.deployHash == s.orders[i].deployHash
  {
    if steps != [] {
      var prefix := steps[..|steps| - 1];
      RunGood(s, prefix);
      FinalStays(s, prefix, i);
      NextGood(Exec(s, prefix), steps[|steps| - 1]);
    }
  }

  // ---- Claims: verify-payment and the fulfilled callback ------------------------------------------------

  /** The step turns order `i` delivered. */
  predicate Claims(s: State, step: Step, i: OrderId) {
    && i < |s.orders| && s.orders[i].status != Delivered
    && i < |Next(s, step).orders| && Next(s, step).orders[i].status == Delivered
  }

  function ClaimCount(s: State, steps: seq<Step>, i: OrderId): nat {
    if steps == [] then 0
    else
      var prefix := steps[..|steps| - 1];
      ClaimCount(s, prefix, i) + if Claims(Exec(s, prefix), steps[|steps| - 1], i) then 1 else 0
  }

  lemma CreatedUndelivered(s: State, step: Step, i: OrderId)
    requires Inv(s) && Assumed(s, step) && |s.orders| <= i < |Next(s, step).orders|
    ensures Next(s, step).orders[i].status != Delivered
  {
    if !Loud(step) { NextGood(s, step); }
  }

  /** Any number of concurrent verify requests and callbacks claim an order at most once. */
  lemma {:induction false} ClaimedAtMostOnce(s: State, steps: seq<Step>, i: OrderId)
    requires Fresh(s) && Run(s, steps)
    ensures ClaimCount(s, steps, i) ==
            if i < |Exec(s, steps).orders| && Exec(s, steps).orders[i].status == Delivered then 1 else 0
  {
    if steps != [] {
      var prefix, step := steps[..|steps| - 1], steps[|steps| - 1];
      var t := Exec(s, prefix);
      ClaimedAtMostOnce(s, prefix, i);
      RunInv(s, prefix);
      NextGood(t, step);
      if |t.orders| <= i < |Next(t, step).orders| { CreatedUndelivered(t, step, i); }
    }
  }

  /**
   * A verify reply claims an order exactly when the payment verified and the order is the request's, still pending,
   * unhashed, and its hash on no other order.
   */
  lemma ReplyClaimsIff(s: State, vid: nat, node: NodeReply, i: OrderId)
    requires vid in s.verifying && i < |s.orders|
    ensures Claims(s, DoVerifyReply(vid, node), i) <==>
            && node.Verified? && i == s.verifying[vid].order
            && s.orders[i].status == PendingPayment && s.orders[i].deployHash.None?
            && forall j :: 0 <= j < |s.orders| && j != i ==> s.orders[j].deployHash != Some(s.verifying[vid].hash)
  {}

  /** The claimed order is delivered with the card that was made for it and the hash it was paid with. */
  lemma ClaimRecords(s: State, vid: nat, node: NodeReply, i: OrderId)
    requires vid in s.verifying && Claims(s, DoVerifyReply(vid, node), i)
    ensures i == s.verifying[vid].order && node.Verified?
    ensures var r := Next(s, DoVerifyReply(vid, node)).orders[i];
            && r.status == Delivered && r.card == Some(node.card) && r.deployHash == Some(s.verifying[vid].hash)
            && r.key == s.orders[i].key && r.amount == s.orders[i].amount
    ensures forall j :: 0 <= j < |s.orders| && j != i ==>
              Next(s, DoVerifyReply(vid, node)).orders[j] == s.orders[j]
              && s.orders[j].deployHash != Some(s.verifying[vid].hash)
  {}

  /** The step claims some order for a request that carries the hash. */
  predicate ClaimsWith(s: State, step: Step, h: Hash) {
    && step.DoVerifyReply? && step.vid in s.verifying && s.verifying[step.vid].hash == h
    && Claims(s, step, s.verifying[step.vid].order)
  }

  function ClaimsWithCount(s: State, steps: seq<Step>, h: Hash): nat {
    if steps == [] then 0
    else
      var prefix := steps[..|steps| - 1];
      ClaimsWithCount(s, prefix, h) + if ClaimsWith(Exec(s, prefix), steps[|steps| - 1], h) then 1 else 0
  }

  predicate HashOnRecord(orders: seq<Order>, h: Hash) {
    exists i :: 0 <= i < |orders| && orders[i].status == Delivered && orders[i].deployHash == Some(h)
  }

  /** A hash on record stays on record, and claims nothing again. */
  lemma RecordedHashStays(s: State, step: Step, h: Hash)
    requires Inv(s) && Assumed(s, step) && HashOnRecord(s.orders, h)
    ensures HashOnRecord(Next(s, step).orders, h) && !ClaimsWith(s, step, h)
  {
    hide Inv, Next;
    NextGood(s, step);
    var i :| 0 <= i < |s.orders| && s.orders[i].status == Delivered && s.orders[i].deployHash == Some(h);
    assert Edge(s.orders[i], Next(s, step).orders[i]);
    if ClaimsWith(s, step, h) { ReplyClaimsIff(s, step.vid, step.node, s.verifying[step.vid].order); }
  }

  lemma ClaimPutsOnRecord(s: State, step: Step, h: Hash)
    requires ClaimsWith(s, step, h)
    ensures HashOnRecord(Next(s, step).orders, h)
  {
    hide Next;
    var i := s.verifying[step.vid].order;
    ClaimRecords(s, step.vid, step.node, i);
    assert Next(s, step).orders[i].deployHash == Some(h);
  }

  /** Over every run one on-chain payment claims at most one order, whatever requests carry its hash. */
  lemma {:induction false} HashClaimsAtMostOnce(s: State, steps: seq<Step>, h: Hash)
    requires Fresh(s) && Run(s, steps)
    ensures ClaimsWithCount(s, steps, h) <= 1
    ensures ClaimsWithCount(s, steps, h) == 1 ==> HashOnRecord(Exec(s, steps).orders, h)
  {
    if steps != [] {
      hide Inv, Next, Assumed, ClaimsWith, HashOnRecord, Fresh;
      var prefix, step := steps[..|steps| - 1], steps[|steps| - 1];
      HashClaimsAtMostOnce(s, prefix, h);
      RunInv(s, prefix);
      var t := Exec(s, prefix);
      if HashOnRecord(t.orders, h) {
        RecordedHashStays(t, step, h);
      } else if ClaimsWith(t, step, h) {
        ClaimPutsOnRecord(t, step, h);
      }
    }
  }

  /** In every reachable state no two orders carry the same deploy hash, and only delivered orders carry one. */
  lemma HashesInjective(s: State, steps: seq<Step>, i: OrderId, j: OrderId)
    requires Fresh(s) && Run(s, steps) && i < |Exec(s, steps).orders| && j < |Exec(s, steps).orders|
    requires Exec(s, steps).orders[i].deployHash.Some?
    ensures Exec(s, steps).orders[i].status == Delivered
    ensures Exec(s, steps).orders[i].deployHash == Exec(s, steps).orders[j].deployHash ==> i == j
  {
    RunInv(s, steps);
    assert RowOk(Exec(s, steps).orders[i]);
  }

  /** A claim adds the order's amount to its key's spend, once; a verify reply that claims nothing adds nothing. */
  lemma ClaimSettlesOnce(s: State, vid: nat, node: NodeReply, k: KeyId)
    requires Inv(s) && vid in s.verifying && k < |s.keys|
    ensures var s' := VerifyReplied(s, vid, node);
            var i := s.verifying[vid].order;
            |s'.keys| == |s.keys| &&
            s'.keys[k].settled == s.keys[k].settled +
              if Claims(s, DoVerifyReply(vid, node), i) && s.orders[i].key == k then s.orders[i].amount else 0
  {}

  /** Of two requests waiting on the same order, only the first to come back verified claims it. */
  lemma SecondVerifyChangesNothing(s: State, vid: nat, vid': nat, card: Card, card': Card)
    requires Inv(s) && vid in s.verifying && vid' in s.verifying && vid != vid'
    requires s.verifying[vid].order == s.verifying[vid'].order
    requires Claims(s, DoVerifyReply(vid, Verified(card)), s.verifying[vid].order)
    ensures var s1 := VerifyReplied(s, vid, Verified(card));
            var s2 := VerifyReplied(s1, vid', Verified(card'));
            s2.orders == s1.orders && s2.keys == s1.keys && s1.orders[s.verifying[vid].order].card == Some(card)
  {}

  // ---- Approvals -----------------------------------------------------------------------------------------

  /** An approval is pending exactly when its order awaits approval, and every awaiting order has one approval. */
  lemma ApprovalCoupling(s: State, steps: seq<Step>, i: OrderId)
    requires Fresh(s) && Run(s, steps) && i < |Exec(s, steps).orders|
    ensures var t := Exec(s, steps);
            t.orders[i].status == AwaitingApproval <==>
            exists a :: 0 <= a < |t.approvals| && t.approvals[a].order == i && t.approvals[a].status == ApprovalPending
    ensures OneApprovalEach(Exec(s, steps).approvals)
  {
    RunInv(s, steps);
    var t := Exec(s, steps);
    if t.orders[i].status == AwaitingApproval {
      assert HasApproval(t.approvals, i);
      var a :| 0 <= a < |t.approvals| && t.approvals[a].order == i;
      assert Coupled(t.orders, t.approvals[a]);
    }
    if a :| 0 <= a < |t.approvals| && t.approvals[a].order == i && t.approvals[a].status == ApprovalPending {
      assert Coupled(t.orders, t.approvals[a]);
    }
  }

  /** The rollback for an order that drifted from `awaiting_approval` cannot be reached. */
  lemma NoOrderStateDrift(s: State, steps: seq<Step>, a: nat, builds: bool)
    requires Fresh(s) && Run(s, steps)
    ensures ApproveOutcome(Exec(s, steps), a, builds) != OrderStateDrift
  {
    RunInv(s, steps);
    var t := Exec(s, steps);
    if a < |t.approvals| { assert Coupled(t.orders, t.approvals[a]); }
  }

  /** Suspend's unguarded order UPDATE does what the guarded one would: it never overwrites a decided order. */
  lemma SuspendOverwritesNothing(s: State, steps: seq<Step>, k: KeyId, a: nat)
    requires Fresh(s) && Run(s, steps)
    ensures var t := Exec(s, steps);
            SuspendRound(t, k, a) == if a < |t.approvals| && t.approvals[a].key == k then RejectApproval(t, a) else t
  {
    RunInv(s, steps);
    var t := Exec(s, steps);
    if a < |t.approvals| { assert Coupled(t.orders, t.approvals[a]); }
  }

  /** An approval is decided at most once: whatever the run does next, its decision stands. */
  lemma {:induction false} DecisionIsFinal(s: State, steps: seq<Step>, a: nat)
    requires Inv(s) && Run(s, steps) && a < |s.approvals| && s.approvals[a].status != ApprovalPending
    ensures a < |Exec(s, steps).approvals| && Exec(s, steps).approvals[a] == s.approvals[a]
  {
    if steps != [] {
      var prefix := steps[..|steps| - 1];
      RunGood(s, prefix);
      DecisionIsFinal(s, prefix, a);
      NextGood(Exec(s, prefix), steps[|steps| - 1]);
    }
  }

  // ---- CTX payments and refunds -----------------------------------------------------------------------------

  /** The send of order `i`'s CTX payment ends with a reply after which it may have landed. */
  predicate MayHaveLanded(s: State, step: Step, i: OrderId) {
    Sending(s.job, i) && step.DoJobReply? && (step.reply.CtxPaid? || step.reply.CtxAmbiguous?)
  }

  function LandedCount(s: State, steps: seq<Step>, i: OrderId): nat {
    if steps == [] then 0
    else
      var prefix := steps[..|steps| - 1];
      LandedCount(s, prefix, i) + if MayHaveLanded(Exec(s, prefix), steps[|steps| - 1], i) then 1 else 0
  }

  /** The step starts a refund send for order `i`. */
  predicate StartsRefund(s: State, step: Step, i: OrderId) {
    i !in s.refunding && i in Next(s, step).refunding
  }

  function RefundCount(s: State, steps: seq<Step>, i: OrderId): nat {
    if steps == [] then 0
    else
      var prefix := steps[..|steps| - 1];
      RefundCount(s, prefix, i) + if StartsRefund(Exec(s, prefix), steps[|steps| - 1], i) then 1 else 0
  }

  function CtxTx(s: State, i: OrderId): Option<Hash> { if i < |s.orders| then s.orders[i].ctxTx else None }

  function RefundSends(s: State, i: OrderId): nat { if i < |s.orders| then s.orders[i].world.refundSends else 0 }

  lemma SendingIsUnpaid(s: State, i: OrderId)
    requires Inv(s) && Sending(s.job, i)
    ensures i < |s.orders| && s.orders[i].status == Ordering && s.orders[i].ctxTx.None?
            && s.orders[i].world.refundSends == 0
  {
    assert AtOk(s.orders, s.job.at);
    assert RowOk(s.orders[i]);
  }

  /** A payment that may have landed is on record when the step ends. */
  lemma LandedIsRecorded(s: State, step: Step, i: OrderId)
    requires Inv(s) && Assumed(s, step) && MayHaveLanded(s, step, i)
    ensures i < |Next(s, step).orders| && CtxTx(Next(s, step), i).Some?
  {
    SendingIsUnpaid(s, i);
  }

  /** In every run an order's CTX payment lands at most once, counting one still in flight. */
  lemma {:induction false} PaidAtMostOnce(s: State, steps: seq<Step>, i: OrderId)
    requires Fresh(s) && Run(s, steps)
    ensures LandedCount(s, steps, i) > 0 ==> CtxTx(Exec(s, steps), i).Some?
    ensures LandedCount(s, steps, i) + (if Sending(Exec(s, steps).job, i) then 1 else 0) <= 1
  {
    RunInv(s, steps);
    if Sending(Exec(s, steps).job, i) { SendingIsUnpaid(Exec(s, steps), i); }
    if steps != [] {
      var prefix, step := steps[..|steps| - 1], steps[|steps| - 1];
      var t := Exec(s, prefix);
      PaidAtMostOnce(s, prefix, i);
      RunInv(s, prefix);
      NextGood(t, step);
      if MayHaveLanded(t, step, i) {
        SendingIsUnpaid(t, i);
        LandedIsRecorded(t, step, i);
      }
    }
  }

  /** A refund send starts at most once, and its order's CTX payment has not landed and is not in flight. */
  lemma {:induction false} RefundedAtMostOnce(s: State, steps: seq<Step>, i: OrderId)
    requires Fresh(s) && Run(s, steps)
    ensures RefundCount(s, steps, i) <= RefundSends(Exec(s, steps), i) <= 1
  {
    RunInv(s, steps);
    var u := Exec(s, steps);
    if i < |u.orders| { assert RowOk(u.orders[i]); }
    if steps != [] {
      var prefix, step := steps[..|steps| - 1], steps[|steps| - 1];
      var t := Exec(s, prefix);
      RefundedAtMostOnce(s, prefix, i);
      RunInv(s, prefix);
      NextGood(t, step);
      if StartsRefund(t, step, i) { assert RowOk(t.orders[i]); }
    }
  }

  /** No order is ever both paid to CTX and refunded, delivered and refunded, or retried past its maximum. */
  lemma NeverPaidAndRefunded(s: State, steps: seq<Step>, i: OrderId)
    requires Fresh(s) && Run(s, steps)
    ensures !(RefundCount(s, steps, i) > 0 && LandedCount(s, steps, i) > 0)
    ensures !(RefundCount(s, steps, i) > 0 && ClaimCount(s, steps, i) > 0)
    ensures !(RefundCount(s, steps, i) > 0 && Sending(Exec(s, steps).job, i))
    ensures i < |Exec(s, steps).orders| ==> Exec(s, steps).orders[i].attempt <= MaxAttempts
  {
    PaidAtMostOnce(s, steps, i);
    RefundedAtMostOnce(s, steps, i);
    ClaimedAtMostOnce(s, steps, i);
    RunInv(s, steps);
    var u := Exec(s, steps);
    if i < |u.orders| { assert RowOk(u.orders[i]); }
    if Sending(u.job, i) { SendingIsUnpaid(u, i); }
  }

  /** Every order the CTX payment went out for and vcc failed ends in quarantine or `failed`, never in a refund. */
  lemma PaidFailureIsQuarantined(s: State, i: OrderId, frozen: bool)
    requires Inv(s) && i < |s.orders| && s.orders[i].ctxTx.Some? && s.orders[i].status == Ordering
    ensures var s' := Callback(s, i, VccFailed, frozen);
            s'.orders[i].status == PendingManualRecovery && s'.refunding == s.refunding
    ensures HardFail(s, i, frozen).orders[i].status == Failed && HardFail(s, i, frozen).refunding == s.refunding
  {}
}
