/** The spend-control rules evaluated before an order row is written (backend/src/policy.js). */
module Policy {
  import opened Common

  /** A numeric rule as stored: absent, a valid amount in cents, or a value that does not parse. */
  datatype Limit = NoLimit | Cents(value: nat) | CorruptLimit

  /** Allowed UTC hours, in minutes of the day; `CorruptHours` is any stored text that fails to parse. */
  datatype Hours = AnyHour | Window(start: nat, end: nat) | CorruptHours

  datatype Days = AnyDay | OnDays(days: set<nat>) | CorruptDays

  datatype Key = Key(
    spendLimit: Option<nat>,
    settled: nat,
    suspended: bool,
    singleTx: Limit,
    hours: Hours,
    days: Days,
    daily: Limit,
    approvalAbove: Limit)

  datatype Decision = Approved | PendingApproval | Blocked(rule: string)

  const SecondsPerDay: nat := 86400

  function DayOf(now: nat): nat { now / SecondsPerDay }

  function MinuteOf(now: nat): nat { now / 60 % 1440 }

  // 1 January 1970 was a Thursday, day 4 when Sunday is day 0.
  function WeekdayOf(now: nat): nat { (DayOf(now) + 4) % 7 }

  predicate InWindow(start: nat, end: nat, minute: nat) {
    if start <= end then start <= minute < end else minute >= start || minute < end
  }

  /** The cascade of rules 1 to 7; the first rule that matches decides. */
  function CheckPolicy(key: Key, spentToday: nat, amount: nat, now: nat): Decision {
    if amount == 0 then Blocked("invalid_amount")
    else if key.suspended then Blocked("suspended")
    else if key.singleTx.CorruptLimit? then Blocked("policy_corrupt_single_tx")
    else if key.singleTx.Cents? && amount > key.singleTx.value then Blocked("single_tx_hard_cap")
    else if key.hours.CorruptHours? then Blocked("policy_corrupt_hours")
    else if key.hours.Window? && !InWindow(key.hours.start, key.hours.end, MinuteOf(now)) then Blocked("after_hours")
    else if key.days.CorruptDays? then Blocked("policy_corrupt_days")
    else if key.days.OnDays? && WeekdayOf(now) !in key.days.days then Blocked("blocked_day")
    else if key.daily.CorruptLimit? then Blocked("policy_corrupt_daily")
    else if key.daily.Cents? && spentToday + amount > key.daily.value then Blocked("daily_limit_exceeded")
    else if key.approvalAbove.CorruptLimit? then Blocked("policy_corrupt_approval")
    else if key.approvalAbove.Cents? && amount > key.approvalAbove.value then PendingApproval
    else Approved
  }

  /** Every stored rule parses. */
  predicate WellFormed(key: Key) {
    && !key.singleTx.CorruptLimit?
    && !key.hours.CorruptHours?
    && !key.days.CorruptDays?
    && !key.daily.CorruptLimit?
    && !key.approvalAbove.CorruptLimit?
  }

  predicate Within(limit: Limit, amount: nat) { limit.Cents? ==> amount <= limit.value }

  /** No rule lets an order through by failing to parse, and a refusal is never due to a rule that holds. */
  lemma NotBlockedIff(key: Key, spentToday: nat, amount: nat, now: nat)
    ensures !CheckPolicy(key, spentToday, amount, now).Blocked? <==>
      && amount > 0
      && !key.suspended
      && WellFormed(key)
      && Within(key.singleTx, amount)
      && Within(key.daily, spentToday + amount)
      && (key.hours.Window? ==> InWindow(key.hours.start, key.hours.end, MinuteOf(now)))
      && (key.days.OnDays? ==> WeekdayOf(now) in key.days.days)
  {}

  // ---- Which answer ----------------------------------------------------------------------------------------------

  datatype Rule = Rule(name: string, broken: bool)

  /** The hard rules in their documented order, each corrupt value just before the rule it spoils. */
  function HardRules(key: Key, spentToday: nat, amount: nat, now: nat): seq<Rule> {
    [ Rule("invalid_amount", amount < 1),
      Rule("suspended", key.suspended),
      Rule("policy_corrupt_single_tx", key.singleTx == CorruptLimit),
      Rule("single_tx_hard_cap", key.singleTx.Cents? && key.singleTx.value < amount),
      Rule("policy_corrupt_hours", key.hours == CorruptHours),
      Rule("after_hours", key.hours.Window? && !InWindow(key.hours.start, key.hours.end, now / 60 % 1440)),
      Rule("policy_corrupt_days", key.days == CorruptDays),
      Rule("blocked_day", key.days.OnDays? && (now / 86400 + 4) % 7 !in key.days.days),
      Rule("policy_corrupt_daily", key.daily == CorruptLimit),
      Rule("daily_limit_exceeded", key.daily.Cents? && key.daily.value < spentToday + amount),
      Rule("policy_corrupt_approval", key.approvalAbove == CorruptLimit) ]
  }

  predicate AllHold(rules: seq<Rule>) { forall i :: 0 <= i < |rules| ==> !rules[i].broken }

  predicate FirstBroken(rules: seq<Rule>, i: nat) {
    i < |rules| && rules[i].broken && forall j :: 0 <= j < i ==> !rules[j].broken
  }

  /** A refusal names the first hard rule that is broken. */
  lemma FirstBrokenRefuses(key: Key, spentToday: nat, amount: nat, now: nat, i: nat)
    requires FirstBroken(HardRules(key, spentToday, amount, now), i)
    ensures CheckPolicy(key, spentToday, amount, now) == Blocked(HardRules(key, spentToday, amount, now)[i].name)
  {
    var rules := HardRules(key, spentToday, amount, now);
    assert i > 0 ==> !rules[0].broken;
    assert i > 1 ==> !rules[1].broken;
    assert i > 2 ==> !rules[2].broken;
    assert i > 3 ==> !rules[3].broken;
    assert i > 4 ==> !rules[4].broken;
    assert i > 5 ==> !rules[5].broken;
    assert i > 6 ==> !rules[6].broken;
    assert i > 7 ==> !rules[7].broken;
    assert i > 8 ==> !rules[8].broken;
    assert i > 9 ==> !rules[9].broken;
  }

  /** With every hard rule kept, an amount over the owner's threshold waits for approval and any other is approved. */
  lemma ApprovalIff(key: Key, spentToday: nat, amount: nat, now: nat)
    ensures CheckPolicy(key, spentToday, amount, now) == PendingApproval <==>
            AllHold(HardRules(key, spentToday, amount, now))
            && key.approvalAbove.Cents? && key.approvalAbove.value < amount
    ensures CheckPolicy(key, spentToday, amount, now) == Approved <==>
            AllHold(HardRules(key, spentToday, amount, now))
            && (key.approvalAbove.Cents? ==> amount <= key.approvalAbove.value)
  {
    var rules := HardRules(key, spentToday, amount, now);
    assert |rules| == 11;
    assert AllHold(rules) <==>
      && !rules[0].broken && !rules[1].broken && !rules[2].broken && !rules[3].broken && !rules[4].broken
      && !rules[5].broken && !rules[6].broken && !rules[7].broken && !rules[8].broken && !rules[9].broken
      && !rules[10].broken;
  }

  /** An hours window is a stretch of the daily cycle from its start, midnight or not. */
  lemma WindowIsCyclic(start: nat, end: nat, minute: nat)
    requires start < 1440 && end < 1440 && minute < 1440
    ensures InWindow(start, end, minute) <==>
            if start == end then false else (minute - start + 1440) % 1440 < (end - start + 1440) % 1440
  {}

  /** Days are UTC days, minutes run through each of them, and the week moves on by one day at midnight. */
  lemma CalendarMoves(day: nat, seconds: nat)
    requires seconds < 86400
    ensures DayOf(day * 86400 + seconds) == day && MinuteOf(day * 86400 + seconds) == seconds / 60
    ensures WeekdayOf(day * 86400 + seconds) == (day + 4) % 7
    ensures WeekdayOf(0) == 4
  {
    MinutesOfDay(day, seconds);
  }

  lemma MinutesOfDay(day: nat, seconds: nat)
    requires seconds < 86400
    ensures (day * 86400 + seconds) / 60 % 1440 == seconds / 60
  {
    assert (day * 86400 + seconds) / 60 == day * 1440 + seconds / 60;
    assert (seconds / 60 + day * 1440) % 1440 == seconds / 60;
  }
}
