/**
 * Owner approvals over whole runs: what each decision does to its order, and that no order over the threshold goes
 * without.
 */
module Approvals {
  import opened Common
  import opened Policy
  import opened Orders
  import opened OrderInvariant
  import opened OrderSafety
  import opened Answers

  // ---- One decision ----------------------------------------------------------------------------------------------

  /** The approval is decided, its order moves, and no other row of either table changes. */
  predicate Moved(s: State, t: State, a: nat, status: ApprovalStatus, r: Order)
    requires a < |s.approvals| && s.approvals[a].order < |s.orders|
  {
    && t.approvals == s.approvals[a := s.approvals[a].(status := status)]
    && t.orders == s.orders[s.approvals[a].order := r]
    && t.keys == s.keys && t.refunding == s.refunding && t.job == s.job
  }

  /** The order that a pending approval is about awaits it. */
  predicate Open(s: State, a: nat) {
    && a < |s.approvals| && s.approvals[a].status == ApprovalPending
    && s.approvals[a].order < |s.orders| && s.orders[s.approvals[a].order].status == AwaitingApproval
  }

  /** Approved exactly while pending and not past its window, and with instructions to pay by. */
  lemma ApproveAnswers(s: State, a: nat, payBy: Option<nat>, builds: bool)
    requires Open(s, a)
    ensures var t, r := Next(s, DoApprove(a, payBy, builds)), s.orders[s.approvals[a].order];
            && (s.now <= s.approvals[a].expiresAt && builds ==>
                  && Moved(s, t, a, ApprovalApproved, r.(status := PendingPayment, payBy := payBy))
                  && ApproveOutcome(s, a, builds) == ApproveOk)
            && (!(s.now <= s.approvals[a].expiresAt && builds) ==> t == s)
            && (s.now > s.approvals[a].expiresAt ==> ApproveOutcome(s, a, builds) == ApproveGone)
            && (s.now <= s.approvals[a].expiresAt && !builds ==> ApproveOutcome(s, a, builds) == ApproveThrew)
  {}

  lemma RejectAnswers(s: State, a: nat)
    requires Open(s, a)
    ensures Moved(s, Next(s, DoReject(a)), a, ApprovalRejected, s.orders[s.approvals[a].order].(status := Rejected))
  {}

  /** Expired exactly once past its window. */
  lemma ExpireAnswers(s: State, a: nat)
    requires Open(s, a)
    ensures var t, r := Next(s, DoExpireApproval(a)), s.orders[s.approvals[a].order];
            && (s.now > s.approvals[a].expiresAt ==> Moved(s, t, a, ApprovalExpired, r.(status := Rejected)))
            && (s.now <= s.approvals[a].expiresAt ==> t == s)
  {}

  lemma SuspendRoundAnswers(s: State, k: KeyId, a: nat)
    requires Open(s, a)
    ensures var t, r := Next(s, DoSuspendRound(k, a)), s.orders[s.approvals[a].order];
            && (s.approvals[a].key == k ==> Moved(s, t, a, ApprovalRejected, r.(status := Rejected)))
            && (s.approvals[a].key != k ==> t == s)
  {}

  predicate OfApproval(step: Step) {
    step.DoApprove? || step.DoReject? || step.DoExpireApproval? || step.DoSuspendRound?
  }

  /** A decision taken before is never taken again. */
  lemma DecidedAnswers(s: State, step: Step)
    requires OfApproval(step)
    requires step.approval >= |s.approvals| || s.approvals[step.approval].status != ApprovalPending
    ensures Next(s, step) == s
  {}

  // ---- Over runs -------------------------------------------------------------------------------------------------

  /** An approved order went on to be paid, one rejected or expired was rejected, and a pending one waits. */
  predicate Follows(orders: seq<Order>, a: Approval) {
    && a.order < |orders|
    && match a.status
       case ApprovalPending => orders[a.order].status == AwaitingApproval
       case ApprovalApproved => orders[a.order].status !in {AwaitingApproval, Rejected}
       case ApprovalRejected => orders[a.order].status == Rejected
       case ApprovalExpired => orders[a.order].status == Rejected
  }

  predicate AllFollow(orders: seq<Order>, approvals: seq<Approval>) {
    forall a :: 0 <= a < |approvals| ==> Follows(orders, approvals[a])
  }

  /** The owner of the key asked to approve orders of this amount. */
  predicate NeedsApproval(r: Order, keys: seq<Key>) {
    r.key < |keys| && keys[r.key].approvalAbove.Cents? && r.amount > keys[r.key].approvalAbove.value
  }

  predicate AllAsked(orders: seq<Order>, approvals: seq<Approval>, keys: seq<Key>) {
    forall i :: 0 <= i < |orders| && NeedsApproval(orders[i], keys) ==> HasApproval(approvals, i)
  }

  predicate Asked(s: State) { AllFollow(s.orders, s.approvals) && AllAsked(s.orders, s.approvals, s.keys) }

  lemma ApprovalsStay(s: State, step: Step)
    requires !OfApproval(step) && !step.DoCommitCreate?
    ensures Next(s, step).approvals == s.approvals
  {
    hide TakeTask, JobReplied, Callback;
  }

  /** Nothing but its own decision takes an order off `awaiting_approval` or makes it rejected. */
  lemma OnlyDecisionsDecide(s: State, step: Step, i: OrderId)
    requires Inv(s) && Assumed(s, step) && !OfApproval(step) && !step.DoCommitCreate? && i < |s.orders|
    ensures i < |Next(s, step).orders|
    ensures Next(s, step).orders[i].status == AwaitingApproval <==> s.orders[i].status == AwaitingApproval
    ensures Next(s, step).orders[i].status == Rejected <==> s.orders[i].status == Rejected
  {
    hide Next;
    NextGood(s, step);
    ApprovalsStay(s, step);
    assert Edge(s.orders[i], Next(s, step).orders[i]);
    if s.orders[i].status == AwaitingApproval {
      assert HasApproval(s.approvals, i);
      var a :| 0 <= a < |s.approvals| && s.approvals[a].order == i;
      assert Coupled(s.orders, s.approvals[a]) && Coupled(Next(s, step).orders, s.approvals[a]);
    }
  }

  lemma QuietStepAsks(s: State, step: Step)
    requires Inv(s) && Assumed(s, step) && Asked(s) && !OfApproval(step) && !step.DoCommitCreate?
    ensures Asked(Next(s, step))
  {
    hide Next, Inv, Assumed, HasApproval;
    var t := Next(s, step);
    NextGood(s, step);
    ApprovalsStay(s, step);
    NoneAdded(s, step);
    forall a | 0 <= a < |t.approvals| ensures Follows(t.orders, t.approvals[a]) {
      assert Follows(s.orders, s.approvals[a]);
      OnlyDecisionsDecide(s, step, s.approvals[a].order);
    }
    forall i | 0 <= i < |t.orders| && NeedsApproval(t.orders[i], t.keys) ensures HasApproval(t.approvals, i) {
      assert Edge(s.orders[i], t.orders[i]) && NeedsApproval(s.orders[i], s.keys);
    }
  }

  lemma NoneAdded(s: State, step: Step)
    requires Inv(s) && Assumed(s, step) && !step.DoCommitCreate?
    ensures |Next(s, step).orders| == |s.orders|
  {
    hide Inv;
    if Loud(step) {
      LoudAddsNone(s, step);
    } else {
      hide Next;
      NextGood(s, step);
    }
  }

  lemma LoudAddsNone(s: State, step: Step)
    requires Loud(step) && !step.DoCommitCreate?
    ensures |Next(s, step).orders| == |s.orders|
  {}

  /** A decision and its order change together. */
  lemma MovedAsks(s: State, t: State, a: nat, status: ApprovalStatus, r: Order)
    requires Inv(s) && Asked(s) && Open(s, a) && Moved(s, t, a, status, r)
    requires r.key == s.orders[s.approvals[a].order].key && r.amount == s.orders[s.approvals[a].order].amount
    requires status != ApprovalPending && r.status == if status == ApprovalApproved then PendingPayment else Rejected
    ensures Asked(t)
  {
    hide Inv;
    EachOne(s);
    forall b | 0 <= b < |t.approvals| ensures Follows(t.orders, t.approvals[b]) {
      assert Follows(s.orders, s.approvals[b]);
      assert b != a ==> s.approvals[b].order != s.approvals[a].order;
    }
    forall i | 0 <= i < |t.orders| && NeedsApproval(t.orders[i], t.keys) ensures HasApproval(t.approvals, i) {
      assert NeedsApproval(s.orders[i], s.keys) && HasApproval(s.approvals, i);
      var b :| 0 <= b < |s.approvals| && s.approvals[b].order == i;
      assert t.approvals[b].order == i;
    }
  }

  lemma EachOne(s: State)
    requires Inv(s)
    ensures forall a, b :: 0 <= a < b < |s.approvals| ==> s.approvals[a].order != s.approvals[b].order
  {}

  lemma DecisionAsks(s: State, step: Step)
    requires Inv(s) && Asked(s) && OfApproval(step)
    ensures Asked(Next(s, step))
  {
    hide Inv, Asked, Next;
    var a, t := step.approval, Next(s, step);
    if a < |s.approvals| && s.approvals[a].status == ApprovalPending {
      PendingIsAwaiting(s, a);
      var r := s.orders[s.approvals[a].order];
      var rejected := r.(status := Rejected);
      match step
      case DoApprove(_, payBy, builds) =>
        ApproveAnswers(s, a, payBy, builds);
        if t != s { MovedAsks(s, t, a, ApprovalApproved, r.(status := PendingPayment, payBy := payBy)); }
      case DoReject(_) =>
        RejectAnswers(s, a);
        MovedAsks(s, t, a, ApprovalRejected, rejected);
      case DoExpireApproval(_) =>
        ExpireAnswers(s, a);
        if t != s { MovedAsks(s, t, a, ApprovalExpired, rejected); }
      case DoSuspendRound(k, _) =>
        SuspendRoundAnswers(s, k, a);
        if t != s { MovedAsks(s, t, a, ApprovalRejected, rejected); }
    } else {
      DecidedAnswers(s, step);
    }
  }

  lemma RequestsKnown(s: State, rid: nat)
    requires Inv(s) && rid in s.creating
    ensures s.creating[rid].key < |s.keys|
  {
    assert RequestOk(s.creating[rid], s.keys);
  }

  lemma CreationKeepsKeys(s: State, step: Step)
    requires step.DoCommitCreate?
    ensures Next(s, step).keys == s.keys && (step.rid !in s.creating ==> Next(s, step) == s)
  {}

  /** An order over its key's threshold comes with an approval to wait for. */
  lemma CreationAsks(s: State, step: Step)
    requires Inv(s) && Asked(s) && step.DoCommitCreate?
    ensures Asked(Next(s, step))
  {
    hide Inv, Next, CreateDecision, CheckPolicy;
    CreationKeepsKeys(s, step);
    if step.rid in s.creating {
      var t, req, answer := Next(s, step), s.creating[step.rid], CreateDecision(s, step.rid, step.builds);
      RequestsKnown(s, step.rid);
      CreateAnswers(s, step.rid, step.builds);
      if answer == Payable {
        PayableWrites(s, step.rid, step.payBy, step.refundable, step.builds);
        ApprovalIff(s.keys[req.key], Total(Daily(req.key, DayOf(s.now)), s.orders), req.amount, s.now);
        AppendedAsks(s, t, s.approvals);
      } else if answer == AwaitsApproval {
        AwaitingWrites(s, step.rid, step.payBy, step.refundable, step.builds);
        assert t.approvals[|s.approvals|].order == |s.orders|;
        assert HasApproval(t.approvals, |s.orders|);
        AppendedAsks(s, t, t.approvals);
      } else {
        RefusedWritesNothing(s, step.rid, step.payBy, step.refundable, step.builds);
      }
    }
  }

  lemma AppendedAsks(s: State, t: State, approvals: seq<Approval>)
    requires Asked(s) && t.keys == s.keys && t.approvals == approvals
    requires |t.orders| == |s.orders| + 1 && t.orders[..|s.orders|] == s.orders
    requires |approvals| >= |s.approvals| && approvals[..|s.approvals|] == s.approvals
    requires forall a :: |s.approvals| <= a < |approvals| ==> Follows(t.orders, approvals[a])
    requires NeedsApproval(t.orders[|s.orders|], s.keys) ==> HasApproval(approvals, |s.orders|)
    ensures Asked(t)
  {
    assert forall i :: 0 <= i < |s.orders| ==> t.orders[i] == s.orders[i];
    forall a | 0 <= a < |approvals| ensures Follows(t.orders, approvals[a]) {
      if a < |s.approvals| { assert approvals[a] == s.approvals[a] && Follows(s.orders, s.approvals[a]); }
    }
    forall i | 0 <= i < |t.orders| && NeedsApproval(t.orders[i], t.keys) ensures HasApproval(approvals, i) {
      if i < |s.orders| {
        assert NeedsApproval(s.orders[i], s.keys) && HasApproval(s.approvals, i);
        var b :| 0 <= b < |s.approvals| && s.approvals[b].order == i;
        assert approvals[b] == s.approvals[b];
      }
    }
  }

  lemma {:induction false} AskedOverRuns(s: State, steps: seq<Step>)
    requires Fresh(s) && Run(s, steps)
    ensures Asked(Exec(s, steps))
  {
    if steps != [] {
      hide Inv, Next, Assumed, Asked, Fresh;
      var prefix, step := steps[..|steps| - 1], steps[|steps| - 1];
      AskedOverRuns(s, prefix);
      RunInv(s, prefix);
      if OfApproval(step) {
        DecisionAsks(Exec(s, prefix), step);
      } else if step.DoCommitCreate? {
        CreationAsks(Exec(s, prefix), step);
      } else {
        QuietStepAsks(Exec(s, prefix), step);
      }
    } else {
      FreshAsks(s);
    }
  }

  lemma FreshAsks(s: State)
    requires Fresh(s)
    ensures Asked(s)
  {}

  /**
   * In every run, an order over its key's approval threshold has an approval, and it got past waiting and rejection
   * only if the owner approved it.
   */
  lemma OverThresholdOnlyApproved(s: State, steps: seq<Step>, i: OrderId) returns (a: nat)
    requires Fresh(s) && Run(s, steps) && i < |Exec(s, steps).orders|
    requires NeedsApproval(Exec(s, steps).orders[i], Exec(s, steps).keys)
    ensures a < |Exec(s, steps).approvals| && Exec(s, steps).approvals[a].order == i
    ensures Exec(s, steps).orders[i].status !in {AwaitingApproval, Rejected} <==>
            Exec(s, steps).approvals[a].status == ApprovalApproved
  {
    hide Exec, Run, Fresh;
    AskedOverRuns(s, steps);
    var t := Exec(s, steps);
    assert HasApproval(t.approvals, i);
    a :| 0 <= a < |t.approvals| && t.approvals[a].order == i;
    assert Follows(t.orders, t.approvals[a]);
  }

  /** In every run each approval and its order tell the same story. */
  lemma OrdersFollowDecisions(s: State, steps: seq<Step>, a: nat)
    requires Fresh(s) && Run(s, steps) && a < |Exec(s, steps).approvals|
    ensures var t := Exec(s, steps);
            var approval := t.approvals[a];
            && approval.order < |t.orders|
            && (t.orders[approval.order].status == AwaitingApproval <==> approval.status == ApprovalPending)
            && (t.orders[approval.order].status == Rejected <==>
                  approval.status == ApprovalRejected || approval.status == ApprovalExpired)
  {
    hide Exec, Run, Fresh;
    AskedOverRuns(s, steps);
    assert Follows(Exec(s, steps).orders, Exec(s, steps).approvals[a]);
  }
}
