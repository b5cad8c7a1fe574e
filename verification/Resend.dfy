/**
 * Why the assumptions on CTX sends are needed: a run from empty tables up to a send, and exactly when an order is
 * sent a second payment after a crash in its send or an ambiguous send without a hash.
 */
module Resend {
  import opened Common
  import opened Policy
  import opened Orders
  import opened OrderInvariant
  import opened Budget
  import opened OrderSafety

  /** A second payment of the order is on its way, with the first not undone. */
  predicate SentTwice(s: State, i: OrderId) {
    Sending(s.job, i) && i < |s.orders| && s.orders[i].world.ctxSends >= 2
  }

  /** Some run from here, under all the assumptions, sends the order's payment again. */
  ghost predicate CanResend(s: State, i: OrderId) { exists steps :: Run(s, steps) && SentTwice(Exec(s, steps), i) }

  lemma RunSnoc(s: State, steps: seq<Step>, step: Step)
    ensures Exec(s, steps + [step]) == Next(Exec(s, steps), step)
    ensures Run(s, steps + [step]) <==> Run(s, steps) && Assumed(Exec(s, steps), step)
  {
    hide Next, Assumed;
    assert (steps + [step])[..|steps|] == steps;
  }

  lemma RunFour(s: State, a: Step, b: Step, c: Step, d: Step)
    ensures Exec(s, [a, b, c, d]) == Next(Next(Next(Next(s, a), b), c), d)
    ensures Run(s, [a, b, c, d]) <==>
            && Assumed(s, a) && Assumed(Next(s, a), b) && Assumed(Next(Next(s, a), b), c)
            && Assumed(Next(Next(Next(s, a), b), c), d)
  {
    hide Next, Assumed;
    assert [] + [a] == [a] && [a] + [b] == [a, b] && [a, b] + [c] == [a, b, c] && [a, b, c] + [d] == [a, b, c, d];
    RunSnoc(s, [], a);
    RunSnoc(s, [a], b);
    RunSnoc(s, [a, b], c);
    RunSnoc(s, [a, b, c], d);
  }

  // ---- With attempts left ------------------------------------------------------------------------------------------

  function SecondAttempt(i: OrderId): seq<Step> {
    [Crash, DoStartPass([i], true), DoTakeTask(false, false), DoJobReply(StillInvoiced, false)]
  }

  lemma PassSelects(s: State, i: OrderId)
    requires s.job.Idle? && i < |s.orders| && ReconcileFilter(s.orders[i])
    ensures Next(s, DoStartPass([i], true)) == s.(job := Pass([Reconcile(i, s.orders[i])], Ready))
  {
    assert Selects(s, [i], true);
    assert Tasks(s.orders, [i], true) == [Reconcile(i, s.orders[i])];
  }

  lemma TaskClaims(s: State, i: OrderId, row: Order)
    requires s.job == Pass([Reconcile(i, row)], Ready) && i < |s.orders| && s.orders[i] == row
    requires row.status == Ordering && row.attempt < MaxAttempts && !row.xlmSent
    ensures var claimed := s.(orders := s.orders[i := row.(attempt := row.attempt + 1)]);
            Next(s, DoTakeTask(false, false)) ==
            claimed.(job := Pass([], if row.vccJob.None? then Invoice(i, row) else JobPoll(i, row)))
  {
    assert s.job.todo[1..] == [];
  }

  lemma PollSends(s: State, i: OrderId, row: Order)
    requires s.job == Pass([], JobPoll(i, row)) && i < |s.orders|
    ensures var t := Next(s, DoJobReply(StillInvoiced, false));
            t.job == Pass([], Send(i, row)) && |t.orders| == |s.orders|
            && t.orders[i].world.ctxSends == s.orders[i].world.ctxSends + 1
  {}

  /** The order's first payment left a trace only outside, and the order has attempts left. */
  predicate OpenToResend(s: State, i: OrderId) {
    && i < |s.orders| && ReconcileFilter(s.orders[i]) && !s.orders[i].xlmSent && s.orders[i].vccJob.Some?
    && s.orders[i].attempt < MaxAttempts && s.orders[i].world.ctxSends == 1
  }

  lemma RestartSends(s: State, i: OrderId)
    requires OpenToResend(s, i) && s.job.Idle?
    ensures var s2 := Next(s, DoStartPass([i], true));
            SentTwice(Next(Next(s2, DoTakeTask(false, false)), DoJobReply(StillInvoiced, false)), i)
  {
    hide Next;
    PassSelects(s, i);
    var s2 := Next(s, DoStartPass([i], true));
    TaskClaims(s2, i, s.orders[i]);
    PollSends(Next(s2, DoTakeTask(false, false)), i, s.orders[i]);
  }

  lemma CrashForgets(s: State, i: OrderId)
    requires OpenToResend(s, i) && (s.job.Pass? ==> !s.job.at.Send?)
    ensures Assumed(s, Crash) && OpenToResend(Next(s, Crash), i) && Next(s, Crash).job.Idle?
  {}

  lemma SecondAttemptSends(s: State, i: OrderId)
    requires OpenToResend(s, i) && (s.job.Pass? ==> !s.job.at.Send?)
    ensures Run(s, SecondAttempt(i)) && SentTwice(Exec(s, SecondAttempt(i)), i)
  {
    hide Next, Assumed, Exec, Run, OpenToResend, SentTwice;
    var s1 := Next(s, Crash);
    var s2 := Next(s1, DoStartPass([i], true));
    CrashForgets(s, i);
    RestartSends(s1, i);
    Harmless(s1, DoStartPass([i], true));
    Harmless(s2, DoTakeTask(false, false));
    Harmless(Next(s2, DoTakeTask(false, false)), DoJobReply(StillInvoiced, false));
    RunFour(s, Crash, DoStartPass([i], true), DoTakeTask(false, false), DoJobReply(StillInvoiced, false));
  }

  // ---- With no attempt left ----------------------------------------------------------------------------------------

  /** The order used up its attempts and the job is not on its way to a send for it. */
  predicate Exhausted(s: State, i: OrderId) {
    i < |s.orders| && s.orders[i].attempt >= MaxAttempts && s.orders[i].world.ctxSends <= 1 && !ToSend(s.job, i)
  }

  predicate ToSend(job: Job, i: OrderId) {
    job.Pass? && (job.at.Invoice? || job.at.JobPoll? || job.at.Send?) && job.at.id == i
  }

  /** The row keeps its attempts and its sends, and the job stays where it is or forgets. */
  predicate Unmoved(s: State, s': State, i: OrderId) {
    && i < |s.orders| && i < |s'.orders| && s'.orders[i].attempt == s.orders[i].attempt
    && s'.orders[i].world.ctxSends == s.orders[i].world.ctxSends && (s'.job == s.job || s'.job == Idle)
  }

  predicate OfTables(step: Step) {
    step.DoApprove? || step.DoReject? || step.DoExpireApproval? || step.DoSuspendRound? || step.DoExpireStale?
    || step.DoEnterOrdering?
  }

  predicate OfJob(step: Step) { step.DoStartPass? || step.DoTakeTask? || step.DoJobReply? }

  lemma TableStepUnmoved(s: State, step: Step, i: OrderId)
    requires i < |s.orders| && OfTables(step)
    ensures Unmoved(s, Next(s, step), i)
  {}

  lemma RefundUnmoved(s: State, j: OrderId, status: Status, frozen: bool, i: OrderId)
    requires i < |s.orders| && j < |s.orders|
    ensures Unmoved(s, RefundOrQuarantine(SetRow(s, j, s.orders[j].(status := status)), j, frozen), i)
  {}

  lemma CallbackUnmoved(s: State, j: OrderId, result: VccResult, frozen: bool, i: OrderId)
    requires i < |s.orders|
    ensures Unmoved(s, Callback(s, j, result, frozen), i)
  {
    hide RefundOrQuarantine;
    if j < |s.orders| {
      RefundUnmoved(s, j, Failed, frozen, i);
      RefundUnmoved(s, j, PendingManualRecovery, frozen, i);
    }
  }

  lemma OtherStepUnmoved(s: State, step: Step, i: OrderId)
    requires i < |s.orders| && !OfTables(step) && !OfJob(step)
    ensures Unmoved(s, Next(s, step), i)
  {
    hide Callback;
    if step.DoCallback? { CallbackUnmoved(s, step.order, step.result, step.frozen, i); }
  }

  lemma HardFailUnmoved(s: State, j: OrderId, frozen: bool, i: OrderId)
    requires i < |s.orders|
    ensures Unmoved(s, HardFail(s, j, frozen), i)
  {
    hide RefundOrQuarantine;
    if j < |s.orders| { RefundUnmoved(s, j, Failed, frozen, i); }
  }

  /** A row out of attempts is not claimed, whatever it was when it was selected. */
  lemma ClaimUnmoved(s: State, j: OrderId, row: Order, i: OrderId)
    requires Exhausted(s, i) && row.attempt < MaxAttempts
    ensures Exhausted(ClaimAttempt(s, j, row), i)
  {}

  lemma TaskUnmoved(s: State, i: OrderId, timedOut: bool, frozen: bool)
    requires Exhausted(s, i)
    ensures Exhausted(TakeTask(s, timedOut, frozen), i)
  {
    hide HardFail, ClaimAttempt;
    if s.job.Pass? && s.job.todo != [] {
      var s1, task := s.(job := Pass(s.job.todo[1..], Ready)), s.job.todo[0];
      HardFailUnmoved(s1, task.id, frozen, i);
      if task.row.attempt < MaxAttempts { ClaimUnmoved(s1, task.id, task.row, i); }
    }
  }

  lemma PollUnmoved(s: State, i: OrderId, reply: JobReply, frozen: bool)
    requires Exhausted(s, i) && s.job.Pass? && (s.job.at.HardFailPoll? || s.job.at.RecoverPoll?)
    ensures Exhausted(JobReplied(s, reply, frozen), i)
  {
    hide HardFail, RefundOrQuarantine;
    var s1, j := MoveTo(s, Ready), s.job.at.id;
    HardFailUnmoved(s1, j, frozen, i);
    if j < |s.orders| {
      RefundUnmoved(s1, j, Failed, frozen, i);
      RefundUnmoved(s1, j, PendingManualRecovery, frozen, i);
    }
  }

  lemma SendUnmoved(s: State, i: OrderId, reply: JobReply, frozen: bool)
    requires Exhausted(s, i) && s.job.Pass? && (s.job.at.Send? || s.job.at.Notify?)
    ensures Exhausted(JobReplied(s, reply, frozen), i)
  {}

  lemma ReplyUnmoved(s: State, i: OrderId, reply: JobReply, frozen: bool)
    requires Exhausted(s, i)
    ensures Exhausted(JobReplied(s, reply, frozen), i)
  {
    hide PollHardFailReplied, RecoverReplied, SendReplied, NotifyReplied;
    if s.job.Pass? && (s.job.at.HardFailPoll? || s.job.at.RecoverPoll?) {
      PollUnmoved(s, i, reply, frozen);
    } else if s.job.Pass? && (s.job.at.Send? || s.job.at.Notify?) {
      SendUnmoved(s, i, reply, frozen);
    }
  }

  lemma ExhaustedStays(s: State, step: Step, i: OrderId)
    requires Exhausted(s, i)
    ensures Exhausted(Next(s, step), i)
  {
    hide TakeTask, JobReplied;
    if OfTables(step) {
      TableStepUnmoved(s, step, i);
    } else if step.DoTakeTask? {
      TaskUnmoved(s, i, step.timedOut, step.frozen);
    } else if step.DoJobReply? {
      ReplyUnmoved(s, i, step.reply, step.frozen);
    } else if !step.DoStartPass? {
      OtherStepUnmoved(s, step, i);
    }
  }

  lemma {:induction false} ExhaustedForGood(s: State, steps: seq<Step>, i: OrderId)
    requires Exhausted(s, i)
    ensures Exhausted(Exec(s, steps), i) && !SentTwice(Exec(s, steps), i)
  {
    if steps != [] {
      ExhaustedForGood(s, steps[..|steps| - 1], i);
      ExhaustedStays(Exec(s, steps[..|steps| - 1]), steps[|steps| - 1], i);
    }
  }

  // ---- The two ways ------------------------------------------------------------------------------------------------

  lemma ResendIff(s: State, t: State, i: OrderId, row: Order)
    requires Inv(s) && s.job.Pass? && s.job.at == Send(i, row) && t.orders == s.orders
    requires t.job.Idle? || (t.job.Pass? && t.job.at.Ready?)
    ensures CanResend(t, i) <==> s.orders[i].attempt < MaxAttempts
  {
    assert AtOk(s.orders, s.job.at) && RowOk(s.orders[i]);
    if s.orders[i].attempt < MaxAttempts {
      SecondAttemptSends(t, i);
    } else if CanResend(t, i) {
      var steps :| Run(t, steps) && SentTwice(Exec(t, steps), i);
      ExhaustedForGood(t, steps, i);
    }
  }

  /**
   * A CTX send whose outcome is lost to a crash is sent again in some run exactly while the order has
   * attempts left.
   */
  lemma CrashInSendResendsIff(s: State, i: OrderId, row: Order)
    requires Inv(s) && s.job.Pass? && s.job.at == Send(i, row)
    ensures CanResend(Next(s, Crash), i) <==> s.orders[i].attempt < MaxAttempts
  {
    ResendIff(s, Next(s, Crash), i, row);
  }

  /** So is an ambiguous send without a hash, which is not parked. */
  lemma HashlessAmbiguityResendsIff(s: State, i: OrderId, row: Order)
    requires Inv(s) && s.job.Pass? && s.job.at == Send(i, row)
    ensures CanResend(Next(s, DoJobReply(CtxAmbiguous(None), false)), i) <==> s.orders[i].attempt < MaxAttempts
  {
    ResendIff(s, Next(s, DoJobReply(CtxAmbiguous(None), false)), i, row);
  }

  // ---- Reached from empty tables -----------------------------------------------------------------------------------

  /** An order is placed and enters the CTX pipeline, and the reconciler takes it up to its send. */
  function SendRun(k: KeyId, amount: nat): seq<Step> { PlaceSteps(k, amount) + FirstAttempt() }

  function PlaceSteps(k: KeyId, amount: nat): seq<Step> {
    [DoArriveCreate(0, k, amount)] + [DoCommitCreate(0, None, true, true)]
  }

  function FirstAttempt(): seq<Step> {
    [DoEnterOrdering(0), DoStartPass([0], true), DoTakeTask(false, false), DoJobReply(Invoiced(5, true), false)]
  }

  lemma {:induction false} RunAppend(s: State, a: seq<Step>, b: seq<Step>)
    ensures Exec(s, a + b) == Exec(Exec(s, a), b)
    ensures Run(s, a + b) <==> Run(s, a) && Run(Exec(s, a), b)
  {
    hide Next, Assumed;
    if b == [] {
      assert a + b == a;
    } else {
      var front, last := b[..|b| - 1], b[|b| - 1];
      RunAppend(s, a, front);
      assert a + b == (a + front) + [last] && b == front + [last];
      RunSnoc(s, a + front, last);
      RunSnoc(Exec(s, a), front, last);
    }
  }

  /** The send of the only order is on its way, and it is the order's first attempt. */
  predicate FirstSend(u: State) {
    u.job.Pass? && u.job.at.Send? && u.job.at.id == 0 && |u.orders| == 1 && u.orders[0].attempt == 1
  }

  lemma EnterOnly(s: State, row: Order)
    requires s.orders == [row] && row.status == PendingPayment
    ensures Next(s, DoEnterOrdering(0)) == s.(orders := [row.(status := Ordering)])
  {
    assert s.orders[0 := row.(status := Ordering)] == [row.(status := Ordering)];
  }

  lemma OnlyOrderSends(s: State, row: Order)
    requires s.orders == [row] && row.status == Ordering && s.job.Idle?
    requires row.vccJob.None? && !row.xlmSent && row.ctxTx.None? && row.attempt == 0
    ensures var s2 := Next(s, DoStartPass([0], true));
            FirstSend(Next(Next(s2, DoTakeTask(false, false)), DoJobReply(Invoiced(5, true), false)))
  {
    hide Next;
    PassSelects(s, 0);
    var s2 := Next(s, DoStartPass([0], true));
    TaskClaims(s2, 0, row);
    InvoiceSends(Next(s2, DoTakeTask(false, false)), row);
  }

  lemma FirstAttemptSends(s: State, row: Order)
    requires s.orders == [row] && row.status == PendingPayment && s.job.Idle?
    requires row.vccJob.None? && !row.xlmSent && row.ctxTx.None? && row.attempt == 0
    ensures Run(s, FirstAttempt()) && FirstSend(Exec(s, FirstAttempt()))
  {
    hide Next, Assumed, Exec, Run, FirstSend;
    var invoiced := DoJobReply(Invoiced(5, true), false);
    var s1 := Next(s, DoEnterOrdering(0));
    var s2 := Next(s1, DoStartPass([0], true));
    EnterOnly(s, row);
    OnlyOrderSends(s1, row.(status := Ordering));
    Harmless(s, DoEnterOrdering(0));
    Harmless(s1, DoStartPass([0], true));
    Harmless(s2, DoTakeTask(false, false));
    Harmless(Next(s2, DoTakeTask(false, false)), invoiced);
    RunFour(s, DoEnterOrdering(0), DoStartPass([0], true), DoTakeTask(false, false), invoiced);
  }

  lemma InvoiceSends(s: State, row: Order)
    requires s.job == Pass([], Invoice(0, row)) && |s.orders| == 1 && !row.xlmSent
    ensures var u := Next(s, DoJobReply(Invoiced(5, true), false));
            u.job == Pass([], Send(0, row)) && |u.orders| == 1 && u.orders[0].attempt == s.orders[0].attempt
  {}

  lemma SendReached(s: State, k: KeyId, limit: nat, amount: nat)
    requires Fresh(s) && k < |s.keys| && OnlyLimited(s.keys[k], limit) && 0 < amount <= Min(limit, MaxAmount)
    ensures Run(s, SendRun(k, amount))
    ensures FirstSend(Exec(s, SendRun(k, amount)))
  {
    var a, b := DoArriveCreate(0, k, amount), DoCommitCreate(0, None, true, true);
    FirstOrderPlaced(s, k, limit, amount);
    assert [] + [a] == [a];
    RunSnoc(s, [], a);
    RunSnoc(s, [a], b);
    var t := Exec(s, PlaceSteps(k, amount));
    FirstAttemptSends(t, t.orders[0]);
    RunAppend(s, PlaceSteps(k, amount), FirstAttempt());
  }

  /** From empty tables, one step that breaks an assumption is enough: the order may be paid twice. */
  lemma PaidTwiceFromEmpty(s: State, k: KeyId, limit: nat, amount: nat)
    requires Fresh(s) && k < |s.keys| && OnlyLimited(s.keys[k], limit) && 0 < amount <= Min(limit, MaxAmount)
    ensures Run(s, SendRun(k, amount))
    ensures CanResend(Next(Exec(s, SendRun(k, amount)), Crash), 0)
    ensures CanResend(Next(Exec(s, SendRun(k, amount)), DoJobReply(CtxAmbiguous(None), false)), 0)
  {
    SendReached(s, k, limit, amount);
    var u := Exec(s, SendRun(k, amount));
    RunInv(s, SendRun(k, amount));
    CrashInSendResendsIff(u, 0, u.job.at.row);
    HashlessAmbiguityResendsIff(u, 0, u.job.at.row);
  }
}
