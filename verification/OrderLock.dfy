/**
 * `withOrderLock`: the lock file of one order, shared by any number of processes. A file older than
 * `maxHold` is taken for a crashed holder's and removed; times are milliseconds on one clock.
 */
module OrderLock {
  import opened Common

  type Pid = nat

  /** The file's modification time, and the live processes inside `fn` with the time they entered. */
  datatype Lock = Lock(now: nat, file: Option<nat>, inside: map<Pid, nat>)

  datatype Step =
    | Pass(ms: nat)
    | Create(pid: Pid)   // open with O_EXCL
    | Steal(pid: Pid)    // stat, compare and unlink
    | Release(pid: Pid)  // unlink on leaving `fn`
    | Crash(pid: Pid)

  function Next(s: Lock, maxHold: nat, step: Step): Lock {
    match step
    case Pass(ms) => s.(now := s.now + ms)
    case Create(p) => if s.file.None? then s.(file := Some(s.now), inside := s.inside[p := s.now]) else s
    case Steal(_) => if s.file.Some? && s.now > s.file.value + maxHold then s.(file := None) else s
    case Release(p) => if p in s.inside then s.(file := None, inside := s.inside - {p}) else s
    case Crash(p) => s.(inside := s.inside - {p})
  }

  /** A process enters while there is no file, only an old file is stolen, and whoever leaves removes it. */
  lemma StepAnswers(s: Lock, maxHold: nat, p: Pid)
    ensures p !in s.inside ==> (p in Next(s, maxHold, Create(p)).inside <==> s.file.None?)
    ensures s.file.None? ==> Next(s, maxHold, Create(p)).file == Some(s.now)
    ensures s.file.Some? ==> (Next(s, maxHold, Steal(p)) == s <==> s.now - s.file.value <= maxHold)
    ensures Next(s, maxHold, Steal(p)) != s ==> Next(s, maxHold, Steal(p)) == s.(file := None)
    ensures p in s.inside ==> Next(s, maxHold, Release(p)).file.None? && p !in Next(s, maxHold, Release(p)).inside
    ensures Next(s, maxHold, Crash(p)).file == s.file && p !in Next(s, maxHold, Crash(p)).inside
    ensures forall ms :: Next(s, maxHold, Pass(ms)) == s.(now := s.now + ms)
  {}

  /** After a release the next process gets in; after a crash it does once the file is past the maximum hold. */
  lemma NextGetsIn(p: Pid, q: Pid, maxHold: nat, ms: nat)
    requires p != q
    ensures var s := Lock(0, None, map[]);
            && Exec(s, maxHold, [Create(p), Release(p), Create(q)]).inside.Keys == {q}
            && Exec(s, maxHold, [Create(p), Create(q)]).inside.Keys == {p}
            && Exec(s, maxHold, [Create(p), Crash(p), Pass(ms), Steal(q), Create(q)]).inside.Keys ==
               if ms > maxHold then {q} else {}
  {
    var s := Lock(0, None, map[]);
    var crashed := [Create(p), Crash(p)];
    var stolen := crashed + [Pass(ms)] + [Steal(q)];
    ExecSteps(s, maxHold, [], Create(p));
    ExecSteps(s, maxHold, [Create(p)], Release(p));
    ExecSteps(s, maxHold, [Create(p)] + [Release(p)], Create(q));
    ExecSteps(s, maxHold, [Create(p)], Create(q));
    ExecSteps(s, maxHold, [Create(p)], Crash(p));
    ExecSteps(s, maxHold, crashed, Pass(ms));
    ExecSteps(s, maxHold, crashed + [Pass(ms)], Steal(q));
    ExecSteps(s, maxHold, stolen, Create(q));
    assert [] + [Create(p)] == [Create(p)] && [Create(p)] + [Crash(p)] == crashed;
    assert [Create(p)] + [Release(p)] + [Create(q)] == [Create(p), Release(p), Create(q)];
    assert [Create(p)] + [Create(q)] == [Create(p), Create(q)];
    assert stolen + [Create(q)] == [Create(p), Crash(p), Pass(ms), Steal(q), Create(q)];
  }

  lemma ExecSteps(s: Lock, maxHold: nat, steps: seq<Step>, step: Step)
    ensures Exec(s, maxHold, steps + [step]) == Next(Exec(s, maxHold, steps), maxHold, step)
  {
    assert (steps + [step])[..|steps|] == steps;
  }

  /** A live holder finishes within `maxHold`: time does not pass that bound while it is inside. */
  predicate HoldersFinish(s: Lock, maxHold: nat, step: Step) {
    step.Pass? ==> forall p :: p in s.inside ==> s.now + step.ms <= s.inside[p] + maxHold
  }

  function Exec(s: Lock, maxHold: nat, steps: seq<Step>): Lock {
    if steps == [] then s else Next(Exec(s, maxHold, steps[..|steps| - 1]), maxHold, steps[|steps| - 1])
  }

  predicate Run(s: Lock, maxHold: nat, steps: seq<Step>) {
    steps == [] ||
    (Run(s, maxHold, steps[..|steps| - 1]) &&
     HoldersFinish(Exec(s, maxHold, steps[..|steps| - 1]), maxHold, steps[|steps| - 1]))
  }

  predicate AtMostOneInside(s: Lock) { forall p, q :: p in s.inside && q in s.inside ==> p == q }

  /** A live holder owns the file that is there, and it is not stale. */
  predicate Inv(s: Lock, maxHold: nat) {
    && AtMostOneInside(s)
    && (forall p :: p in s.inside ==> s.file == Some(s.inside[p]) && s.inside[p] <= s.now <= s.inside[p] + maxHold)
  }

  lemma NextInv(s: Lock, maxHold: nat, step: Step)
    requires Inv(s, maxHold) && HoldersFinish(s, maxHold, step)
    ensures Inv(Next(s, maxHold, step), maxHold)
  {}

  /** In every run with crashes and steals, at most one live process is inside `fn`. */
  lemma {:induction false} MutualExclusion(s: Lock, maxHold: nat, steps: seq<Step>)
    requires s.inside == map[] && Run(s, maxHold, steps)
    ensures Inv(Exec(s, maxHold, steps), maxHold) && AtMostOneInside(Exec(s, maxHold, steps))
  {
    if steps != [] {
      MutualExclusion(s, maxHold, steps[..|steps| - 1]);
      NextInv(Exec(s, maxHold, steps[..|steps| - 1]), maxHold, steps[|steps| - 1]);
    }
  }

  /** A stealer that is delayed between its stat and its unlink removes whatever file is there. */
  function LateUnlink(s: Lock): Lock { s.(file := None) }

  /** So the steal must be one step: a late unlink lets the next process in beside a holder iff there is one. */
  lemma LateUnlinkBreaksIff(s: Lock, maxHold: nat, p: Pid)
    requires Inv(s, maxHold) && p !in s.inside
    ensures AtMostOneInside(Next(LateUnlink(s), maxHold, Create(p))) <==> s.inside == map[]
  {
    var t := Next(LateUnlink(s), maxHold, Create(p));
    if s.inside != map[] {
      var q :| q in s.inside;
      assert q in t.inside && p in t.inside && p != q;
    }
  }

  // ---- A lone waiter ---------------------------------------------------------------------------------------

  datatype Outcome = Acquired(at: nat, stolen: bool) | LockTimeout(at: nat)

  const PollMs: nat := 100

  /** The clock at the k-th turn of the loop: each sleep lasts at least the poll time and at most `lag` longer. */
  ghost predicate Wakes(wake: nat -> nat, start: nat, lag: nat) {
    && wake(0) == start
    && (forall k: nat :: wake(k) + PollMs <= wake(k + 1) <= wake(k) + PollMs + lag)
  }

  /** At a turn of the loop: the file is not stale yet, and the deadline has not come. */
  predicate KeepsWaiting(file: nat, now: nat, maxHold: nat, deadline: nat) { now <= file + maxHold && now < deadline }

  /** The loop of `withOrderLock` when no other live process touches the file: it ends at its n-th turn. */
  method WaitAlone(file: Option<nat>, wake: nat -> nat, maxHold: nat, acquireTimeout: nat, ghost start: nat,
                   ghost lag: nat)
    returns (r: Outcome, ghost n: nat)
    requires Wakes(wake, start, lag) && (file.Some? ==> file.value <= start)
    ensures file.None? ==> r == Acquired(start, false)
    ensures file.Some? ==>
              && (forall k :: 0 <= k < n ==> KeepsWaiting(file.value, wake(k), maxHold, start + acquireTimeout))
              && !KeepsWaiting(file.value, wake(n), maxHold, start + acquireTimeout)
              && r == if wake(n) > file.value + maxHold then Acquired(wake(n), true) else LockTimeout(wake(n))
    ensures r.Acquired? && file.Some? ==>
            r.stolen && r.at > file.value + maxHold && r.at <= Max(start, file.value + maxHold + PollMs + lag)
    ensures r.LockTimeout? ==> start + acquireTimeout <= r.at && file.Some? && r.at <= file.value + maxHold
  {
    var turn: nat := 0;
    var deadline := wake(0) + acquireTimeout;
    var there := file;
    var stolen := false;
    n := 0;
    while true
      invariant n == turn
      invariant file.Some? ==> forall k :: 0 <= k < n ==> KeepsWaiting(file.value, wake(k), maxHold, deadline)
      invariant there == file || (there.None? && stolen)
      invariant stolen ==> file.Some? && wake(turn) > file.value + maxHold && there.None?
      invariant !stolen && turn > 0 ==> file.Some? && wake(turn - 1) <= file.value + maxHold
      invariant stolen && turn > 0 ==> wake(turn - 1) <= file.value + maxHold
      decreases if file.Some? then Max(0, file.value + maxHold + 1 - wake(turn)) else 0, !stolen
    {
      assert turn > 0 ==> wake(turn - 1 + 1) == wake(turn);
      if there.None? { return Acquired(wake(turn), stolen), n; }
      if wake(turn) > there.value + maxHold {
        there, stolen := None, true;
        continue;
      }
      if wake(turn) >= deadline { return LockTimeout(wake(turn)), n; }
      assert wake(turn) + PollMs <= wake(turn + 1);
      turn, n := turn + 1, n + 1;
    }
  }

  /**
   * A waiter behind a crashed holder never times out when the margin of the acquire timeout over `maxHold`
   * (one minute in the pay path) covers one late sleep; it holds the lock before its deadline.
   */
  method WaitBehindCrashed(created: nat, wake: nat -> nat, maxHold: nat, margin: nat, ghost start: nat, ghost lag: nat)
    returns (at: nat)
    requires Wakes(wake, start, lag) && created <= start && PollMs + lag <= margin && 0 < margin
    ensures created + maxHold < at <= start + maxHold + margin
  {
    var r, n := WaitAlone(Some(created), wake, maxHold, maxHold + margin, start, lag);
    assert r.Acquired?;
    at := r.at;
  }
}
