/**
 The plan-quota gates (relay/internal/usage/quota.go): decisions computed from the
 rows of the tables, a plan and the time. -1 caps are unlimited.
 */
module Quota {
  import opened Wire
  import opened Calendar
  import opened BoxTables
  import opened TurnTable

  const FIVE_DAYS: int := 5 * DAY

  datatype Plan = Plan(llmPer5d: int, llmPerMonth: int, runsPerMonth: int, activeBoxes: int)

  datatype Used = Used(last5d: int, thisMonth: int, runs: int, active: int, countedAt: int)

  datatype Window = NoWindow | Llm5d | LlmMonthly | Sandbox | Storage

  datatype Decision = Decision(allowed: bool, limitedBy: Window, retryAfter: int)

  predicate Counts(db: Db, ns: string, since: int, t: Row) { Owned(db, ns, t.box) && t.at >= since }

  /** LLMSpentByNamespace: the sum of cost_cents of the namespace's turns since then. */
  function Spent(db: Db, turns: seq<Row>, ns: string, since: int): int {
    if turns == [] then 0
    else
      var t := turns[|turns| - 1];
      Spent(db, turns[..|turns| - 1], ns, since) + if Counts(db, ns, since, t) then t.cents else 0
  }

  function Runs(db: Db, ns: string, now: int): int { |RunsSince(db, ns, Millis(StartOfMonth(now)))| }

  /** None is the error for an empty namespace. */
  function UsedBy(db: Db, turns: seq<Row>, ns: string, now: int): Option<Used> {
    if ns == "" then None
    else Some(Used(Last5d(db, turns, ns, now), ThisMonth(db, turns, ns, now), Runs(db, ns, now), |ActiveBoxes(db, ns)|, now))
  }

  function Last5d(db: Db, turns: seq<Row>, ns: string, now: int): int { Spent(db, turns, ns, Millis(now - FIVE_DAYS)) }

  function ThisMonth(db: Db, turns: seq<Row>, ns: string, now: int): int { Spent(db, turns, ns, Millis(StartOfMonth(now))) }

  const ALLOW := Decision(true, NoWindow, 0)

  predicate Trips(cap: int, used: int) { cap >= 0 && used >= cap }

  function CheckLLM(u: Used, plan: Plan): Decision {
    if Trips(plan.llmPer5d, u.last5d) then Decision(false, Llm5d, FIVE_DAYS)
    else if Trips(plan.llmPerMonth, u.thisMonth) then Decision(false, LlmMonthly, NextMonth(u.countedAt) - u.countedAt)
    else ALLOW
  }

  function CheckSandbox(u: Used, plan: Plan): Decision {
    if Trips(plan.runsPerMonth, u.runs) then Decision(false, Sandbox, NextMonth(u.countedAt) - u.countedAt) else ALLOW
  }

  function CheckStorage(u: Used, plan: Plan): Decision {
    if Trips(plan.activeBoxes, u.active) then Decision(false, Storage, 0) else ALLOW
  }

  /** The LLM gate: it lets a turn through exactly if both budgets have something left, -1 being
      unlimited; if both are used up it is the 5-day window that it names, with 5 days to wait; otherwise
      the month, to be waited out. */
  lemma LlmGateDecides(db: Db, turns: seq<Row>, ns: string, plan: Plan, now: int)
    requires ns != ""
    ensures var d := CheckLLM(UsedBy(db, turns, ns, now).value, plan);
            var spent5d, spentMonth := Spent(db, turns, ns, Millis(now - 5 * 86_400_000_000_000)), Spent(db, turns, ns, Millis(StartOfMonth(now)));
            && (d.allowed <==> (plan.llmPer5d < 0 || spent5d < plan.llmPer5d) && (plan.llmPerMonth < 0 || spentMonth < plan.llmPerMonth))
            && (plan.llmPer5d >= 0 && spent5d >= plan.llmPer5d ==> d.limitedBy == Llm5d && d.retryAfter == 5 * 86_400_000_000_000)
            && (!d.allowed && (plan.llmPer5d < 0 || spent5d < plan.llmPer5d) ==>
                  d.limitedBy == LlmMonthly && d.retryAfter == NextMonth(now) - now)
  {}

  /** The sandbox and storage gates: refused exactly at the cap, -1 being unlimited. */
  lemma BoxGatesDecide(db: Db, turns: seq<Row>, ns: string, plan: Plan, now: int)
    requires ns != ""
    ensures CheckSandbox(UsedBy(db, turns, ns, now).value, plan) ==
            if plan.runsPerMonth >= 0 && |RunsSince(db, ns, Millis(StartOfMonth(now)))| >= plan.runsPerMonth
            then Decision(false, Sandbox, NextMonth(now) - now) else Decision(true, NoWindow, 0)
    ensures CheckStorage(UsedBy(db, turns, ns, now).value, plan) ==
            if plan.activeBoxes >= 0 && |ActiveBoxes(db, ns)| >= plan.activeBoxes
            then Decision(false, Storage, 0) else Decision(true, NoWindow, 0)
  {}

  // ----- retry hints: no new rows between the refusal and the retry -----

  /** Rows were stamped no later than the refusal. */
  ghost predicate Settled(db: Db, turns: seq<Row>, now: int) {
    && (forall i :: 0 <= i < |turns| ==> turns[i].at <= Millis(now))
    && (forall key :: key in db.bundles ==> db.bundles[key].builtAt <= Millis(now))
  }

  lemma {:induction false} NothingSince(db: Db, turns: seq<Row>, ns: string, since: int)
    requires forall i :: 0 <= i < |turns| ==> turns[i].at < since
    ensures Spent(db, turns, ns, since) == 0
  {
    if turns != [] { NothingSince(db, turns[..|turns| - 1], ns, since); }
  }

  lemma MillisFollow(t: int, u: int)
    requires t < u && u % MILLI == 0
    ensures Millis(t) < Millis(u)
  {}

  lemma MidnightIsWhole(n: int)
    ensures (n * DAY) % MILLI == 0
  {
    assert n * DAY == (n * 86_400_000) * MILLI;
  }

  /** At the instant the hint names a new month has begun and it is empty. */
  lemma NewMonthIsEmpty(db: Db, turns: seq<Row>, ns: string, now: int)
    requires Settled(db, turns, now)
    ensures ThisMonth(db, turns, ns, NextMonth(now)) == 0 && Runs(db, ns, NextMonth(now)) == 0
  {
    MonthWindow(now);
    NextMonthStarts(now);
    MidnightIsWhole(ToDays(FirstOfNext(FromDays(DayOf(now)))));
    MillisFollow(now, NextMonth(now));
    NothingSince(db, turns, ns, Millis(NextMonth(now)));
    assert RunsSince(db, ns, Millis(NextMonth(now))) == {};
  }

  /** The instant a refusal tells the caller to come back. */
  function Retry(d: Decision, now: int): int { now + d.retryAfter }

  lemma RetryTimes(u: Used, plan: Plan)
    ensures CheckLLM(u, plan).limitedBy.Llm5d? ==> Retry(CheckLLM(u, plan), u.countedAt) == u.countedAt + FIVE_DAYS
    ensures CheckLLM(u, plan).limitedBy.LlmMonthly? ==> Retry(CheckLLM(u, plan), u.countedAt) == NextMonth(u.countedAt)
    ensures !CheckSandbox(u, plan).allowed ==> Retry(CheckSandbox(u, plan), u.countedAt) == NextMonth(u.countedAt)
  {}

  /** The sandbox hint is honest: after a refusal, at now + RetryAfter the gate has reopened
      unless its cap is zero, which never lets anything through. */
  lemma SandboxHintIsHonest(db: Db, turns: seq<Row>, ns: string, plan: Plan, u: Used, later: int)
    requires UsedBy(db, turns, ns, u.countedAt) == Some(u) && Settled(db, turns, u.countedAt)
    requires !CheckSandbox(u, plan).allowed && later == Retry(CheckSandbox(u, plan), u.countedAt)
    ensures CheckSandbox(UsedBy(db, turns, ns, later).value, plan).allowed <==> plan.runsPerMonth != 0
  {
    RetryTimes(u, plan);
    NewMonthIsEmpty(db, turns, ns, u.countedAt);
  }

  /** So is the hint of the monthly LLM gate. */
  lemma MonthlyHintIsHonest(db: Db, turns: seq<Row>, ns: string, plan: Plan, u: Used, later: int)
    requires UsedBy(db, turns, ns, u.countedAt) == Some(u) && Settled(db, turns, u.countedAt)
    requires CheckLLM(u, plan).limitedBy.LlmMonthly? && later == Retry(CheckLLM(u, plan), u.countedAt)
    ensures Trips(plan.llmPerMonth, UsedBy(db, turns, ns, later).value.thisMonth) <==> plan.llmPerMonth == 0
  {
    RetryTimes(u, plan);
    NewMonthIsEmpty(db, turns, ns, u.countedAt);
  }

  /** The 5-day hint is one millisecond short: from 1 ms later on that gate has reopened unless
      its cap is zero. */
  lemma FiveDayHintPlusOne(db: Db, turns: seq<Row>, ns: string, plan: Plan, u: Used, later: int)
    requires UsedBy(db, turns, ns, u.countedAt) == Some(u) && Settled(db, turns, u.countedAt)
    requires CheckLLM(u, plan).limitedBy.Llm5d? && later >= Retry(CheckLLM(u, plan), u.countedAt) + MILLI
    ensures CheckLLM(UsedBy(db, turns, ns, later).value, plan).limitedBy.Llm5d? <==> plan.llmPer5d == 0
  {
    FiveDaysOn(db, turns, ns, u.countedAt, later);
    Only5d(u, UsedBy(db, turns, ns, later).value, plan);
  }

  lemma FiveDaysOn(db: Db, turns: seq<Row>, ns: string, now: int, later: int)
    requires Settled(db, turns, now)
    ensures later >= now + FIVE_DAYS + MILLI ==> Last5d(db, turns, ns, later) == 0
    ensures later == now + FIVE_DAYS ==> Last5d(db, turns, ns, later) == SpentAt(db, turns, ns, Millis(now))
  {
    if later >= now + FIVE_DAYS + MILLI {
      assert Millis(later - FIVE_DAYS) >= Millis(now) + 1;
      NothingSince(db, turns, ns, Millis(later - FIVE_DAYS));
    }
    LastMillisecond(db, turns, ns, Millis(now));
  }

  /** The namespace's spend stamped in one millisecond. */
  function SpentAt(db: Db, turns: seq<Row>, ns: string, at: int): int {
    if turns == [] then 0
    else
      var t := turns[|turns| - 1];
      SpentAt(db, turns[..|turns| - 1], ns, at) + if Owned(db, ns, t.box) && t.at == at then t.cents else 0
  }

  lemma {:induction false} LastMillisecond(db: Db, turns: seq<Row>, ns: string, at: int)
    requires forall i :: 0 <= i < |turns| ==> turns[i].at <= at
    ensures Spent(db, turns, ns, at) == SpentAt(db, turns, ns, at)
  {
    if turns != [] { LastMillisecond(db, turns[..|turns| - 1], ns, at); }
  }

  /** At exactly now + RetryAfter the 5-day gate still fires if and only if the turns stamped in
      the refusal's own millisecond alone reach the cap. */
  lemma FiveDayHintExactly(db: Db, turns: seq<Row>, ns: string, plan: Plan, u: Used, later: int)
    requires UsedBy(db, turns, ns, u.countedAt) == Some(u) && Settled(db, turns, u.countedAt)
    requires CheckLLM(u, plan).limitedBy.Llm5d? && later == Retry(CheckLLM(u, plan), u.countedAt)
    ensures CheckLLM(UsedBy(db, turns, ns, later).value, plan).limitedBy.Llm5d?
            <==> SpentAt(db, turns, ns, Millis(u.countedAt)) >= plan.llmPer5d
  {
    FiveDaysOn(db, turns, ns, u.countedAt, later);
    Only5d(u, UsedBy(db, turns, ns, later).value, plan);
  }

  lemma Only5d(u: Used, v: Used, plan: Plan)
    requires CheckLLM(u, plan).limitedBy.Llm5d?
    ensures plan.llmPer5d >= 0 && Retry(CheckLLM(u, plan), u.countedAt) == u.countedAt + FIVE_DAYS
    ensures CheckLLM(v, plan).limitedBy.Llm5d? <==> v.last5d >= plan.llmPer5d
  {}

  lemma OneTurn(db: Db, ns: string, t: Row, since: int)
    ensures Spent(db, [t], ns, since) == if Counts(db, ns, since, t) then t.cents else 0
  {
    assert Spent(db, [t][..0], ns, since) == 0;
  }

  /** It does happen: a turn billed in the millisecond of the refusal, at the cap. */
  lemma FiveDayHintIsShort(db: Db, ns: string, t: Row, plan: Plan, now: int)
    requires ns != "" && Owned(db, ns, t.box) && t.at == Millis(now) && t.cents == plan.llmPer5d > 0
    ensures var d := CheckLLM(UsedBy(db, [t], ns, now).value, plan);
            d.limitedBy.Llm5d? && CheckLLM(UsedBy(db, [t], ns, Retry(d, now)).value, plan).limitedBy.Llm5d?
  {
    OneTurn(db, ns, t, Millis(now - FIVE_DAYS));
    OneTurn(db, ns, t, Millis(now + FIVE_DAYS - FIVE_DAYS));
  }
}
