/** Spend limits over whole runs: what is settled, what is committed, and the daily cap. */
module Budget {
  import opened Common
  import opened Policy
  import opened Orders
  import opened OrderInvariant

  // ---- Sums ------------------------------------------------------------------------------------------

  lemma {:induction false} TotalSet(m: Measure, rows: seq<Order>, i: nat, r: Order)
    requires i < |rows|
    ensures Total(m, rows[i := r]) == Total(m, rows) - Weight(m, rows[i]) + Weight(m, r)
  {
    var n := |rows| - 1;
    if i < n {
      assert rows[i := r][..n] == rows[..n][i := r];
      TotalSet(m, rows[..n], i, r);
    } else {
      assert rows[i := r][..n] == rows[..n];
    }
  }

  lemma TotalAppend(m: Measure, rows: seq<Order>, r: Order)
    ensures Total(m, rows + [r]) == Total(m, rows) + Weight(m, r)
  {
    assert (rows + [r])[..|rows|] == rows;
  }

  lemma {:induction false} TotalMono(m: Measure, rows: seq<Order>, rows': seq<Order>)
    requires |rows| == |rows'|
    requires forall i :: 0 <= i < |rows| ==> Weight(m, rows'[i]) <= Weight(m, rows[i])
    ensures Total(m, rows') <= Total(m, rows)
  {
    if rows != [] { TotalMono(m, rows[..|rows| - 1], rows'[..|rows| - 1]); }
  }

  lemma {:induction false} TotalSplits(k: KeyId, rows: seq<Order>)
    ensures Total(Claimable(k), rows) == Total(InFlight(k), rows) + Total(DeliveredTotal(k), rows)
  {
    if rows != [] { TotalSplits(k, rows[..|rows| - 1]); }
  }

  // ---- Settled spend is the sum of delivered orders -----------------------------------------------------

  predicate SettledExact(s: State) {
    forall k :: 0 <= k < |s.keys| ==> s.keys[k].settled == Total(DeliveredTotal(k), s.orders)
  }

  lemma OnlyCreateAppends(s: State, step: Step)
    requires Inv(s) && Assumed(s, step) && !step.DoCommitCreate?
    ensures |Next(s, step).orders| == |s.orders|
  {
    if !Loud(step) { NextGood(s, step); }
  }

  lemma QuietKeepsSettled(s: State, s': State)
    requires Quiet(s, s') && Edges(s.orders, s'.orders) && SettledExact(s)
    ensures SettledExact(s')
  {
    forall k | 0 <= k < |s.keys| ensures s'.keys[k].settled == Total(DeliveredTotal(k), s'.orders) {
      TotalMono(DeliveredTotal(k), s.orders, s'.orders);
      TotalMono(DeliveredTotal(k), s'.orders, s.orders);
    }
  }

  lemma CreateKeepsSettled(s: State, rid: nat, payBy: Option<nat>, refundable: bool, builds: bool)
    requires SettledExact(s)
    ensures SettledExact(CommitCreate(s, rid, payBy, refundable, builds))
  {
    var s' := CommitCreate(s, rid, payBy, refundable, builds);
    if |s'.orders| > |s.orders| {
      forall k | 0 <= k < |s.keys| ensures s'.keys[k].settled == Total(DeliveredTotal(k), s'.orders) {
        TotalAppend(DeliveredTotal(k), s.orders, s'.orders[|s.orders|]);
      }
    }
  }

  lemma DeliverSettles(s: State, i: OrderId, card: Card, hash: Option<Hash>)
    requires SettledExact(s) && i < |s.orders| && s.orders[i].key < |s.keys| && s.orders[i].status != Delivered
    ensures SettledExact(Deliver(s, i, card, hash))
  {
    var s' := Deliver(s, i, card, hash);
    forall k | 0 <= k < |s.keys| ensures s'.keys[k].settled == Total(DeliveredTotal(k), s'.orders) {
      TotalSet(DeliveredTotal(k), s.orders, i, s'.orders[i]);
    }
  }

  lemma SettledKept(s: State, step: Step)
    requires Inv(s) && Assumed(s, step) && SettledExact(s)
    ensures SettledExact(Next(s, step))
  {
    if step.DoVerifyReply? {
      if step.vid in s.verifying && step.node.Verified? && s.verifying[step.vid].order < |s.orders| &&
         s.orders[s.verifying[step.vid].order].status == PendingPayment {
        var s1 := s.(verifying := s.verifying - {step.vid});
        DeliverSettles(s1, s.verifying[step.vid].order, step.node.card, Some(s.verifying[step.vid].hash));
      }
    } else if step.DoCallback? && step.result.Fulfilled? {
      if step.order < |s.orders| && s.orders[step.order].status !in Terminal {
        DeliverSettles(s, step.order, step.result.card, s.orders[step.order].deployHash);
      }
    } else if step.DoCommitCreate? {
      CreateKeepsSettled(s, step.rid, step.payBy, step.refundable, step.builds);
    } else if !step.DoSetSuspended? {
      NextGood(s, step);
      QuietKeepsSettled(s, Next(s, step));
    }
  }

  /** In every run, each key's settled spend is the sum of its delivered orders. */
  lemma {:induction false} SettledIsDelivered(s: State, steps: seq<Step>)
    requires Fresh(s) && Run(s, steps)
    ensures SettledExact(Exec(s, steps))
  {
    if steps != [] {
      var prefix := steps[..|steps| - 1];
      RunInv(s, prefix);
      SettledIsDelivered(s, prefix);
      SettledKept(Exec(s, prefix), steps[|steps| - 1]);
    }
  }

  // ---- Committed spend ------------------------------------------------------------------------------------

  /** Settled plus in flight: what the limit check compares with the limit, on fresh figures. */
  function Committed(s: State, k: KeyId): nat {
    (if k < |s.keys| then s.keys[k].settled else 0) + Total(InFlight(k), s.orders)
  }

  lemma CommittedIsClaimable(s: State, k: KeyId)
    requires SettledExact(s) && k < |s.keys|
    ensures Committed(s, k) == Total(Claimable(k), s.orders)
  {
    TotalSplits(k, s.orders);
  }

  /** Nothing but order creation raises committed spend: not approving, delivering, expiring, rejecting or refunding. */
  lemma OnlyCreationRaisesCommitted(s: State, step: Step, k: KeyId)
    requires Inv(s) && Assumed(s, step) && SettledExact(s) && k < |s.keys| && !step.DoCommitCreate?
    ensures Committed(Next(s, step), k) <= Committed(s, k)
  {
    hide Inv, Next, Assumed;
    var s' := Next(s, step);
    NextGood(s, step);
    SettledKept(s, step);
    OnlyCreateAppends(s, step);
    CommittedIsClaimable(s, k);
    CommittedIsClaimable(s', k);
    TotalMono(Claimable(k), s.orders, s'.orders);
  }

  predicate Creates(s: State, step: Step) {
    step.DoCommitCreate? && CreateDecision(s, step.rid, step.builds) in {AwaitsApproval, Payable}
  }

  /** The row a creation appends. */
  function CreatedRow(s: State, step: Step): Order
    requires step.DoCommitCreate? && step.rid in s.creating
  {
    var req := s.creating[step.rid];
    if CreateDecision(s, step.rid, step.builds).AwaitsApproval?
    then NewRow(s, req, AwaitingApproval, None, step.refundable)
    else NewRow(s, req, PendingPayment, step.payBy, step.refundable)
  }

  lemma CreationShape(s: State, step: Step)
    requires step.DoCommitCreate?
    ensures Next(s, step).keys == s.keys
    ensures !Creates(s, step) ==> Next(s, step).orders == s.orders
    ensures Creates(s, step) ==> step.rid in s.creating && Next(s, step).orders == s.orders + [CreatedRow(s, step)]
  {}

  /** Creation adds the order's amount to its key and nothing to the others. */
  lemma CreationAddsAmount(s: State, step: Step, k: KeyId)
    requires step.DoCommitCreate? && k < |s.keys|
    ensures |Next(s, step).keys| == |s.keys|
    ensures Committed(Next(s, step), k) == Committed(s, k) +
              if Creates(s, step) && s.creating[step.rid].key == k then s.creating[step.rid].amount else 0
  {
    CreationShape(s, step);
    if Creates(s, step) {
      TotalAppend(InFlight(k), s.orders, CreatedRow(s, step));
    }
  }

  /** Spend settled on the key between a waiting request's snapshot and now. */
  function Staleness(s: State, step: Step, k: KeyId): nat
  {
    if step.DoCommitCreate? && step.rid in s.creating && s.creating[step.rid].key == k && k < |s.keys| &&
       s.creating[step.rid].snapshot.settled <= s.keys[k].settled
    then s.keys[k].settled - s.creating[step.rid].snapshot.settled else 0
  }

  /** The largest such amount over the creations of a run. */
  function MaxStaleness(s: State, steps: seq<Step>, k: KeyId): nat {
    if steps == [] then 0
    else
      var prefix := steps[..|steps| - 1];
      Max(MaxStaleness(s, prefix, k), Staleness(Exec(s, prefix), steps[|steps| - 1], k))
  }

  lemma CreationWithinLimit(s: State, step: Step, k: KeyId, limit: nat)
    requires Inv(s) && step.DoCommitCreate? && k < |s.keys| && s.keys[k].spendLimit == Some(limit)
    requires Creates(s, step) && s.creating[step.rid].key == k
    ensures Committed(Next(s, step), k) <= limit + Staleness(s, step, k)
  {
    CreationAddsAmount(s, step, k);
    assert RequestOk(s.creating[step.rid], s.keys);
  }

  lemma RulesKept(s: State, step: Step, k: KeyId)
    requires Inv(s) && Assumed(s, step) && k < |s.keys|
    ensures |Next(s, step).keys| == |s.keys| && SameRules(s.keys[k], Next(s, step).keys[k])
  {
    NextGood(s, step);
  }

  lemma {:induction false} RulesKeptByRun(s: State, steps: seq<Step>, k: KeyId)
    requires Fresh(s) && Run(s, steps) && k < |s.keys|
    ensures |Exec(s, steps).keys| == |s.keys| && SameRules(s.keys[k], Exec(s, steps).keys[k])
  {
    if steps != [] {
      var prefix := steps[..|steps| - 1];
      RulesKeptByRun(s, prefix, k);
      RunInv(s, prefix);
      RulesKept(Exec(s, prefix), steps[|steps| - 1], k);
    }
  }

  lemma CommittedStep(s: State, step: Step, k: KeyId, limit: nat)
    requires Inv(s) && Assumed(s, step) && SettledExact(s) && k < |s.keys| && s.keys[k].spendLimit == Some(limit)
    ensures |Next(s, step).keys| == |s.keys|
    ensures Committed(Next(s, step), k) <= Max(Committed(s, k), limit + Staleness(s, step, k))
  {
    hide Inv, Next, Assumed, Committed, Staleness, SettledExact;
    RulesKept(s, step, k);
    if Creates(s, step) && s.creating[step.rid].key == k {
      CreationWithinLimit(s, step, k, limit);
    } else if step.DoCommitCreate? {
      CreationAddsAmount(s, step, k);
    } else {
      OnlyCreationRaisesCommitted(s, step, k);
    }
  }

  /** In every run, committed spend stays within the limit plus the largest amount one creation did not see settle. */
  lemma {:induction false} CommittedWithinLimit(s: State, steps: seq<Step>, k: KeyId, limit: nat)
    requires Fresh(s) && Run(s, steps) && k < |s.keys| && s.keys[k].spendLimit == Some(limit)
    ensures |Exec(s, steps).keys| == |s.keys|
    ensures Committed(Exec(s, steps), k) <= limit + MaxStaleness(s, steps, k)
  {
    if steps != [] {
      hide Inv, Next, Assumed, Committed, Staleness, SettledExact;
      var prefix := steps[..|steps| - 1];
      CommittedWithinLimit(s, prefix, k, limit);
      RulesKeptByRun(s, prefix, k);
      RunInv(s, prefix);
      SettledIsDelivered(s, prefix);
      CommittedStep(Exec(s, prefix), steps[|steps| - 1], k, limit);
    }
  }

  /** The exact case in which a creation oversteps the limit: more settled unseen than its own check left free. */
  lemma OverLimitIff(s: State, step: Step, k: KeyId, limit: nat)
    requires Inv(s) && k < |s.keys| && s.keys[k].spendLimit == Some(limit)
    requires Creates(s, step) && s.creating[step.rid].key == k
    ensures var req := s.creating[step.rid];
            var free := limit - (req.snapshot.settled + Total(InFlight(k), s.orders) + req.amount);
            free >= 0 && (Committed(Next(s, step), k) > limit <==> Staleness(s, step, k) > free)
  {
    CreationAddsAmount(s, step, k);
    assert RequestOk(s.creating[step.rid], s.keys);
  }

  /** A key with a spend limit and no other rule. */
  predicate OnlyLimited(key: Key, limit: nat) {
    key == Key(Some(limit), 0, false, NoLimit, AnyHour, AnyDay, NoLimit, NoLimit)
  }

  /**
   * Two orders that each fit the limit but not together, the first settled between the second's snapshot and
   * its commit.
   */
  function UntilSettled(k: KeyId, first: nat, second: nat): seq<Step> {
    [DoArriveCreate(0, k, first)] + [DoCommitCreate(0, None, true, true)] + [DoArriveCreate(1, k, second)]
    + [DoVerifyBegin(0, 0, 7, true)] + [DoVerifyReply(0, Verified(9))]
  }

  function StaleRun(k: KeyId, first: nat, second: nat): seq<Step> {
    UntilSettled(k, first, second) + [DoCommitCreate(1, None, true, true)]
  }

  lemma Snoc(s: State, steps: seq<Step>, step: Step, k: KeyId)
    ensures Exec(s, steps + [step]) == Next(Exec(s, steps), step)
    ensures Run(s, steps + [step]) <==> Run(s, steps) && Assumed(Exec(s, steps), step)
    ensures MaxStaleness(s, steps + [step], k) == Max(MaxStaleness(s, steps, k), Staleness(Exec(s, steps), step, k))
  {
    assert (steps + [step])[..|steps|] == steps;
  }

  lemma FirstOrderPlaced(s: State, k: KeyId, limit: nat, first: nat)
    requires Fresh(s) && k < |s.keys| && OnlyLimited(s.keys[k], limit) && 0 < first <= Min(limit, MaxAmount)
    ensures var t := Next(Next(s, DoArriveCreate(0, k, first)), DoCommitCreate(0, None, true, true));
            && t.orders == [NewRow(s, CreateRequest(k, first, s.keys[k]), PendingPayment, None, true)]
            && t.creating == map[] && t.verifying == map[] && t.keys == s.keys
            && Staleness(Next(s, DoArriveCreate(0, k, first)), DoCommitCreate(0, None, true, true), k) == 0
  {
    assert s.creating[0 := CreateRequest(k, first, s.keys[k])] - {0} == map[];
  }

  lemma FirstOrderSettled(s: State, t: State, k: KeyId, limit: nat, first: nat, second: nat)
    requires k < |s.keys| && OnlyLimited(s.keys[k], limit) && 0 < first && 0 < second <= MaxAmount
    requires t.orders == [NewRow(s, CreateRequest(k, first, s.keys[k]), PendingPayment, None, true)]
    requires t.creating == map[] && t.verifying == map[] && t.keys == s.keys
    ensures var t2 := Next(Next(t, DoArriveCreate(1, k, second)), DoVerifyBegin(0, 0, 7, true));
            var u := Next(t2, DoVerifyReply(0, Verified(9)));
            && |u.orders| == 1 && u.orders[0].status == Delivered && u.orders[0].key == k
            && u.creating == map[1 := CreateRequest(k, second, s.keys[k])]
            && u.keys == s.keys[k := s.keys[k].(settled := first)]
  {
    var t2 := Next(Next(t, DoArriveCreate(1, k, second)), DoVerifyBegin(0, 0, 7, true));
    assert t2.verifying == map[0 := VerifyRequest(0, 7)];
  }

  /** The stale snapshot lets the second order through. */
  lemma SecondOrderCreates(u: State, k: KeyId, limit: nat, first: nat, second: nat, snapshot: Key)
    requires k < |u.keys| && OnlyLimited(snapshot, limit) && u.keys[k] == snapshot.(settled := first)
    requires u.creating == map[1 := CreateRequest(k, second, snapshot)]
    requires 0 < second <= limit && Total(InFlight(k), u.orders) == 0
    ensures CreateDecision(u, 1, true) == Payable
  {}

  lemma SecondOrderOverruns(u: State, k: KeyId, limit: nat, first: nat, second: nat, snapshot: Key)
    requires k < |u.keys| && OnlyLimited(snapshot, limit) && u.keys[k] == snapshot.(settled := first)
    requires |u.orders| == 1 && u.orders[0].status == Delivered
             && u.creating == map[1 := CreateRequest(k, second, snapshot)]
    requires 0 < second <= limit
    ensures Committed(Next(u, DoCommitCreate(1, None, true, true)), k) == first + second
    ensures Staleness(u, DoCommitCreate(1, None, true, true), k) == first
  {
    TotalAppend(InFlight(k), [], u.orders[0]);
    assert [] + [u.orders[0]] == u.orders;
    SecondOrderCreates(u, k, limit, first, second, snapshot);
    CreationAddsAmount(u, DoCommitCreate(1, None, true, true), k);
  }

  /** Nothing is assumed of these steps. */
  lemma Harmless(s: State, step: Step)
    requires !step.DoCallback? && !step.Crash?
    requires step.DoJobReply? ==> !step.reply.CtxPaid? && !step.reply.CtxAmbiguous?
    ensures Assumed(s, step)
  {}

  /** So the limit alone is no bound: for every such pair there is a run that ends over it. */
  lemma StaleSnapshotOverruns(s: State, k: KeyId, limit: nat, first: nat, second: nat)
    requires Fresh(s) && k < |s.keys| && OnlyLimited(s.keys[k], limit)
    requires 0 < first <= Min(limit, MaxAmount) && 0 < second <= Min(limit, MaxAmount) && first + second > limit
    ensures Run(s, StaleRun(k, first, second))
    ensures Committed(Exec(s, StaleRun(k, first, second)), k) == first + second > limit
    ensures MaxStaleness(s, StaleRun(k, first, second), k) == first
  {
    hide Next, Assumed, Exec, Run, MaxStaleness;
    var a, b, c := DoArriveCreate(0, k, first), DoCommitCreate(0, None, true, true), DoArriveCreate(1, k, second);
    var d, e, f := DoVerifyBegin(0, 0, 7, true), DoVerifyReply(0, Verified(9)), DoCommitCreate(1, None, true, true);
    RunEmpty(s, k);
    assert [] + [a] == [a];
    Snoc(s, [], a, k);
    Snoc(s, [a], b, k);
    Snoc(s, [a] + [b], c, k);
    Snoc(s, [a] + [b] + [c], d, k);
    Snoc(s, [a] + [b] + [c] + [d], e, k);
    Snoc(s, UntilSettled(k, first, second), f, k);
    FirstOrderPlaced(s, k, limit, first);
    FirstOrderSettled(s, Exec(s, [a] + [b]), k, limit, first, second);
    SecondOrderOverruns(Exec(s, UntilSettled(k, first, second)), k, limit, first, second, s.keys[k]);
    forall t, step | step in {a, b, c, d, e, f} ensures Assumed(t, step) { Harmless(t, step); }
  }

  lemma RunEmpty(s: State, k: KeyId)
    ensures Exec(s, []) == s && Run(s, []) && MaxStaleness(s, [], k) == 0
  {}

  /** What GET /v1/usage reports as left to spend. */
  function Remaining(s: State, k: KeyId, limit: nat): nat
    requires k < |s.keys|
  {
    Max(0, limit - Committed(s, k))
  }

  /** A request that arrives and commits with nothing in between passes the limit check iff it fits what is reported. */
  lemma RemainingIsWhatFits(s: State, rid: nat, k: KeyId, amount: nat, limit: nat, builds: bool)
    requires k < |s.keys| && s.keys[k].spendLimit == Some(limit) && rid !in s.creating
             && MinAmount <= amount <= MaxAmount
    ensures CreateDecision(ArriveCreate(s, rid, k, amount), rid, builds) != SpendLimitExceeded <==>
            amount <= Remaining(s, k, limit)
  {}

  // ---- When a callback is not preceded by notifyPaid ----------------------------------------------------------

  /** The fulfilled callback's guard alone: it raises committed spend exactly on an expired or rejected order. */
  lemma UnannouncedFulfilRaisesIff(s: State, i: OrderId, card: Card, frozen: bool)
    requires Inv(s) && SettledExact(s) && i < |s.orders|
    ensures var k := s.orders[i].key;
            |Callback(s, i, Fulfilled(card), frozen).keys| == |s.keys| && k < |s.keys| &&
            (Committed(Callback(s, i, Fulfilled(card), frozen), k) > Committed(s, k) <==>
             s.orders[i].status in {Expired, Rejected})
  {
    var r := s.orders[i];
    assert RowOk(r);
    var s' := Callback(s, i, Fulfilled(card), frozen);
    if r.status !in Terminal {
      TotalSet(InFlight(r.key), s.orders, i, s'.orders[i]);
    }
  }

  // ---- Daily cap ------------------------------------------------------------------------------------------------

  /** Orders created on `day` on the key, neither expired nor rejected, as the daily rule counts them. */
  function SpentOn(s: State, k: KeyId, day: nat): nat { Total(Daily(k, day), s.orders) }

  lemma CreationWithinDaily(s: State, step: Step, k: KeyId, limit: nat)
    requires Creates(s, step) && k < |s.keys| && s.keys[k].daily == Cents(limit) && s.creating[step.rid].key == k
    ensures SpentOn(s, k, DayOf(s.now)) + s.creating[step.rid].amount <= limit
  {}

  lemma CreationKeepsDaily(s: State, step: Step, k: KeyId, day: nat, limit: nat)
    requires step.DoCommitCreate? && k < |s.keys| && s.keys[k].daily == Cents(limit) && SpentOn(s, k, day) <= limit
    ensures SpentOn(Next(s, step), k, day) <= limit
  {
    CreationShape(s, step);
    if Creates(s, step) {
      TotalAppend(Daily(k, day), s.orders, CreatedRow(s, step));
      if s.creating[step.rid].key == k { CreationWithinDaily(s, step, k, limit); }
    }
  }

  lemma DailyOnlyFalls(k: KeyId, day: nat, orders: seq<Order>, orders': seq<Order>)
    requires |orders| == |orders'| && Edges(orders, orders')
    ensures Total(Daily(k, day), orders') <= Total(Daily(k, day), orders)
  {
    TotalMono(Daily(k, day), orders, orders');
  }

  lemma DailyKept(s: State, step: Step, k: KeyId, day: nat, limit: nat)
    requires Inv(s) && Assumed(s, step) && k < |s.keys| && s.keys[k].daily == Cents(limit)
             && SpentOn(s, k, day) <= limit
    ensures SpentOn(Next(s, step), k, day) <= limit
  {
    if step.DoCommitCreate? {
      CreationKeepsDaily(s, step, k, day, limit);
    } else {
      NextGood(s, step);
      OnlyCreateAppends(s, step);
      DailyOnlyFalls(k, day, s.orders, Next(s, step).orders);
    }
  }

  /** With a fixed daily limit, no day's total exceeds it in any run. */
  lemma {:induction false} DailyCap(s: State, steps: seq<Step>, k: KeyId, day: nat, limit: nat)
    requires Fresh(s) && Run(s, steps) && k < |s.keys| && s.keys[k].daily == Cents(limit)
    ensures SpentOn(Exec(s, steps), k, day) <= limit
  {
    if steps != [] {
      var prefix := steps[..|steps| - 1];
      DailyCap(s, prefix, k, day, limit);
      RulesKeptByRun(s, prefix, k);
      RunInv(s, prefix);
      DailyKept(Exec(s, prefix), steps[|steps| - 1], k, day, limit);
    }
  }

  // ---- What the sums are -----------------------------------------------------------------------------------------

  /** The amounts of the orders that count. */
  function SumOf(rows: seq<Order>, counts: Order -> bool): nat {
    if rows == [] then 0 else rows[0].amount * (if counts(rows[0]) then 1 else 0) + SumOf(rows[1..], counts)
  }

  lemma {:induction false} SumSnoc(rows: seq<Order>, r: Order, counts: Order -> bool)
    ensures SumOf(rows + [r], counts) == SumOf(rows, counts) + if counts(r) then r.amount else 0
  {
    if rows == [] {
      assert [] + [r] == [r];
    } else {
      SumSnoc(rows[1..], r, counts);
      assert (rows + [r])[1..] == rows[1..] + [r];
    }
  }

  lemma {:induction false} TotalIsSum(m: Measure, rows: seq<Order>, counts: Order -> bool)
    requires forall r :: Weight(m, r) == if counts(r) then r.amount else 0
    ensures Total(m, rows) == SumOf(rows, counts)
  {
    if rows != [] {
      var front, last := rows[..|rows| - 1], rows[|rows| - 1];
      TotalIsSum(m, front, counts);
      SumSnoc(front, last, counts);
      assert rows == front + [last];
    }
  }

  /** Committed is what was settled and every order that waits for approval, payment, its card or its refund. */
  lemma CommittedIs(s: State, k: KeyId)
    requires k < |s.keys|
    ensures Committed(s, k) == s.keys[k].settled +
              SumOf(s.orders, (r: Order) =>
                r.key == k && r.status in {AwaitingApproval, PendingPayment, Ordering, RefundPending})
  {
    TotalIsSum(InFlight(k), s.orders, (r: Order) =>
      r.key == k && r.status in {AwaitingApproval, PendingPayment, Ordering, RefundPending});
  }

  /** A day's spend is every order created on that UTC day but the expired and the rejected. */
  lemma SpentOnIs(s: State, k: KeyId, day: nat)
    ensures SpentOn(s, k, day) ==
              SumOf(s.orders, (r: Order) =>
                r.key == k && r.createdAt / 86400 == day && r.status != Expired && r.status != Rejected)
  {
    TotalIsSum(Daily(k, day), s.orders, (r: Order) =>
      r.key == k && r.createdAt / 86400 == day && r.status != Expired && r.status != Rejected);
  }

  /** In every run, settled spend is the sum of the delivered orders and nothing else. */
  lemma SettledIs(s: State, steps: seq<Step>, k: KeyId)
    requires Fresh(s) && Run(s, steps) && k < |Exec(s, steps).keys|
    ensures Exec(s, steps).keys[k].settled ==
              SumOf(Exec(s, steps).orders, (r: Order) => r.key == k && r.status == Delivered)
  {
    SettledIsDelivered(s, steps);
    TotalIsSum(DeliveredTotal(k), Exec(s, steps).orders, (r: Order) => r.key == k && r.status == Delivered);
  }
}
