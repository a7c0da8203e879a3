/**
 The daily message gate (relay/internal/billing/ws_gate.go): a read of the counter
 and, if it is below the plan's limit, a separate increment.
 */
module Gate {
  import opened Wire
  import opened UsageDaily

  // ----- one call -----

  datatype Verdict = Allowed | QuotaExceeded | Failed

  /** The seeded plans (CanonicalPlans), used when the plans table has no row. */
  function CanonicalLimit(plan: string): Option<int> {
    if plan == "free" then Some(1_000) else if plan == "pro" then Some(100_000)
    else if plan == "max" then Some(500_000) else None
  }

  /** One message of so many bytes is added to the user's day, and nothing else changes. */
  ghost predicate Counted(before: seq<Row>, rows: seq<Row>, user: string, day: int, bytes: int) {
    && RowFor(rows, user, day).messages == RowFor(before, user, day).messages + 1
    && RowFor(rows, user, day).bytes == RowFor(before, user, day).bytes + bytes
    && forall u, d :: u != user || d != day ==> RowFor(rows, u, d) == RowFor(before, u, d)
  }

  class Gate {
    var subscriptions: map<string, string>
    const plans: map<string, int>
    const usage: Usage

    constructor (plans: map<string, int>)
      ensures subscriptions == map[] && this.plans == plans && fresh(usage) && usage.Valid() && usage.rows == []
    {
      subscriptions := map[];
      this.plans := plans;
      usage := new Usage();
    }

    function LimitFor(user: string): Option<int> reads this {
      var plan := if user in subscriptions then subscriptions[user] else "free";
      if plan in plans then Some(plans[plan]) else CanonicalLimit(plan)
    }

    // An undisturbed call: a missing subscription is healed to the free plan first.
    method CheckAndIncrement(user: string, bytes: int, day: int) returns (v: Verdict)
      requires usage.Valid()
      modifies this`subscriptions, usage
      ensures usage.Valid()
      // The limit is that of the user's plan, of the free plan without a subscription; a plan without a
      // row has its seeded limit, and one that was never seeded ends the call.
      ensures var plan := if user in old(subscriptions) then old(subscriptions)[user] else "free";
              var used := RowFor(old(usage.rows), user, day).messages;
              && (plan in plans ==> v == if used >= plans[plan] then QuotaExceeded else Allowed)
              && (plan !in plans && plan == "free" ==> v == if used >= 1_000 then QuotaExceeded else Allowed)
              && (plan !in plans && plan == "pro" ==> v == if used >= 100_000 then QuotaExceeded else Allowed)
              && (plan !in plans && plan == "max" ==> v == if used >= 500_000 then QuotaExceeded else Allowed)
              && (plan !in plans && plan !in {"free", "pro", "max"} ==> v == Failed)
      ensures subscriptions == if user in old(subscriptions) then old(subscriptions) else old(subscriptions)[user := "free"]
      ensures v.Failed? <==> old(LimitFor(user)) == None
      ensures v.QuotaExceeded? <==>
                old(LimitFor(user)).Some? && RowFor(old(usage.rows), user, day).messages >= old(LimitFor(user)).value
      ensures !v.Allowed? ==> usage.rows == old(usage.rows)
      ensures v.Allowed? ==> Counted(old(usage.rows), usage.rows, user, day, bytes)
    {
      if user !in subscriptions {
        subscriptions := subscriptions[user := "free"];
      }
      var limit := LimitFor(user);
      if limit.None? { return Failed; }
      var used := usage.MessagesForDay(user, day);
      if used >= limit.value { return QuotaExceeded; }
      usage.IncrementBoth(user, day, 1, bytes);
      v := Allowed;
    }
  }

  // ----- concurrent calls: the read and the increment interleave -----

  /** `calls` holds the calls in flight, at most |calls| at a time; a call that passed the
      check remembers the day it will count. */
  datatype Call = Idle | Passed(day: int)
  datatype State = State(counts: map<int, int>, calls: seq<Call>)

  datatype Action = Check(i: nat, day: int) | Increment(i: nat) | Abort(i: nat)

  function Count(s: State, day: int): int { if day in s.counts then s.counts[day] else 0 }

  function Step(limit: int, s: State, a: Action): State {
    match a
    case Check(i, day) =>
      if i < |s.calls| && s.calls[i].Idle? && Count(s, day) < limit
      then s.(calls := s.calls[i := Passed(day)]) else s
    case Increment(i) =>
      if i < |s.calls| && s.calls[i].Passed?
      then State(s.counts[s.calls[i].day := Count(s, s.calls[i].day) + 1], s.calls[i := Idle]) else s
    case Abort(i) =>
      if i < |s.calls| then s.(calls := s.calls[i := Idle]) else s
  }

  function Start(k: nat): State { State(map[], seq(k, _ => Idle)) }

  function Run(limit: int, k: nat, actions: seq<Action>): State {
    if actions == [] then Start(k)
    else Step(limit, Run(limit, k, actions[..|actions| - 1]), actions[|actions| - 1])
  }

  /** How many calls have passed the check for a day and not yet counted. */
  function Pending(calls: seq<Call>, day: int): nat {
    if calls == [] then 0
    else Pending(calls[..|calls| - 1], day) + if calls[|calls| - 1] == Passed(day) then 1 else 0
  }

  lemma {:induction false} PendingUpdate(calls: seq<Call>, i: nat, c: Call, day: int)
    requires i < |calls|
    ensures Pending(calls[i := c], day) ==
            Pending(calls, day) + (if c == Passed(day) then 1 else 0) - (if calls[i] == Passed(day) then 1 else 0)
    ensures Pending(calls, day) + (if calls[i] != Passed(day) then 1 else 0) <= |calls|
  {
    var n := |calls| - 1;
    PendingBound(calls[..n], day);
    if i == n {
      assert calls[i := c][..n] == calls[..n];
    } else {
      assert calls[i := c][..n] == calls[..n][i := c];
      PendingUpdate(calls[..n], i, c, day);
    }
  }

  lemma {:induction false} PendingBound(calls: seq<Call>, day: int)
    ensures Pending(calls, day) <= |calls|
  {
    if calls != [] { PendingBound(calls[..|calls| - 1], day); }
  }

  lemma {:induction false} NonePending(k: nat, day: int)
    ensures Pending(seq(k, _ => Idle), day) == 0
  {
    if k > 0 {
      assert seq(k, _ => Idle)[..k - 1] == seq(k - 1, _ => Idle);
      NonePending(k - 1, day);
    }
  }

  lemma {:induction false} CountAndPending(limit: int, k: nat, actions: seq<Action>, day: int)
    ensures var s := Run(limit, k, actions);
            && |s.calls| == k
            && Count(s, day) >= 0
            && (limit <= 0 ==> Count(s, day) == 0 && Pending(s.calls, day) == 0)
            && (limit > 0 ==> Count(s, day) + Pending(s.calls, day) <= limit - 1 + k)
  {
    if actions == [] {
      NonePending(k, day);
    } else {
      var s, a := Run(limit, k, actions[..|actions| - 1]), actions[|actions| - 1];
      CountAndPending(limit, k, actions[..|actions| - 1], day);
      if a.i < |s.calls| {
        PendingUpdate(s.calls, a.i, if a.Check? then Passed(a.day) else Idle, day);
        CountAndPending(limit, k, actions[..|actions| - 1], if s.calls[a.i].Passed? then s.calls[a.i].day else day);
        PendingAtLeast(s.calls, a.i);
      }
    }
  }

  lemma {:induction false} PendingAtLeast(calls: seq<Call>, i: nat)
    requires i < |calls|
    ensures calls[i].Passed? ==> Pending(calls, calls[i].day) >= 1
  {
    if i < |calls| - 1 { PendingAtLeast(calls[..|calls| - 1], i); }
  }

  /** The soft cap: with at most k calls in flight a day's counter never passes limit - 1 + k,
      so with one call at a time it never passes the limit; a limit of zero admits nothing. */
  lemma SoftCap(limit: int, k: nat, actions: seq<Action>, day: int)
    ensures limit > 0 ==> Count(Run(limit, k, actions), day) <= limit - 1 + k
    ensures limit > 0 && k == 1 ==> Count(Run(limit, k, actions), day) <= limit
    ensures limit <= 0 ==> Count(Run(limit, k, actions), day) == 0
  {
    CountAndPending(limit, k, actions, day);
  }

  // ----- the bound is reached -----

  function Fill(n: nat, day: int): seq<Action> {
    if n == 0 then [] else Fill(n - 1, day) + [Check(0, day), Increment(0)]
  }

  function Checks(k: nat, day: int): seq<Action> {
    if k == 0 then [] else Checks(k - 1, day) + [Check(k - 1, day)]
  }

  function Increments(k: nat): seq<Action> {
    if k == 0 then [] else Increments(k - 1) + [Increment(k - 1)]
  }

  /** The day's counter is n, and exactly the calls lo..hi-1 have passed the check. */
  ghost predicate Shape(s: State, k: nat, day: int, n: int, lo: int, hi: int) {
    && |s.calls| == k && Count(s, day) == n
    && forall i :: 0 <= i < k ==> s.calls[i] == if lo <= i < hi then Passed(day) else Idle
  }

  lemma CheckShape(limit: int, s: State, k: nat, day: int, n: int, hi: nat)
    requires Shape(s, k, day, n, 0, hi) && hi < k && n < limit
    ensures Shape(Step(limit, s, Check(hi, day)), k, day, n, 0, hi + 1)
  {}

  lemma IncrementShape(limit: int, s: State, k: nat, day: int, n: int, lo: nat, hi: nat)
    requires Shape(s, k, day, n, lo, hi) && lo < hi <= k
    ensures Shape(Step(limit, s, Increment(lo)), k, day, n + 1, lo + 1, hi)
  {}

  lemma RunSnoc(limit: int, k: nat, actions: seq<Action>, a: Action)
    ensures Run(limit, k, actions + [a]) == Step(limit, Run(limit, k, actions), a)
  {
    assert (actions + [a])[..|actions|] == actions;
  }

  lemma {:induction false} FillRuns(limit: int, k: nat, n: nat, day: int)
    requires k > 0 && n <= limit - 1
    ensures Shape(Run(limit, k, Fill(n, day)), k, day, n, 0, 0)
  {
    if n > 0 {
      FillRuns(limit, k, n - 1, day);
      var before := Fill(n - 1, day);
      CheckShape(limit, Run(limit, k, before), k, day, n - 1, 0);
      RunSnoc(limit, k, before, Check(0, day));
      IncrementShape(limit, Run(limit, k, before + [Check(0, day)]), k, day, n - 1, 0, 1);
      RunSnoc(limit, k, before + [Check(0, day)], Increment(0));
      assert Fill(n, day) == before + [Check(0, day)] + [Increment(0)];
    }
  }

  lemma {:induction false} ChecksRun(limit: int, k: nat, j: nat, before: seq<Action>, day: int)
    requires j <= k && limit > 0 && Shape(Run(limit, k, before), k, day, limit - 1, 0, 0)
    ensures Shape(Run(limit, k, before + Checks(j, day)), k, day, limit - 1, 0, j)
  {
    if j == 0 {
      assert before + Checks(0, day) == before;
    } else {
      ChecksRun(limit, k, j - 1, before, day);
      CheckShape(limit, Run(limit, k, before + Checks(j - 1, day)), k, day, limit - 1, j - 1);
      RunSnoc(limit, k, before + Checks(j - 1, day), Check(j - 1, day));
      assert before + Checks(j, day) == before + Checks(j - 1, day) + [Check(j - 1, day)];
    }
  }

  lemma {:induction false} IncrementsRun(limit: int, k: nat, j: nat, before: seq<Action>, day: int)
    requires j <= k && Shape(Run(limit, k, before), k, day, limit - 1, 0, k)
    ensures Shape(Run(limit, k, before + Increments(j)), k, day, limit - 1 + j, j, k)
  {
    if j == 0 {
      assert before + Increments(0) == before;
    } else {
      IncrementsRun(limit, k, j - 1, before, day);
      IncrementShape(limit, Run(limit, k, before + Increments(j - 1)), k, day, limit - 2 + j, j - 1, k);
      RunSnoc(limit, k, before + Increments(j - 1), Increment(j - 1));
      assert before + Increments(j) == before + Increments(j - 1) + [Increment(j - 1)];
    }
  }

  /** Some run reaches the bound, so the overshoot is k - 1 messages, not one. */
  lemma SoftCapIsTight(limit: int, k: nat, day: int) returns (actions: seq<Action>)
    requires limit > 0 && k > 0
    ensures Count(Run(limit, k, actions), day) == limit - 1 + k
  {
    actions := Fill(limit - 1, day);
    FillRuns(limit, k, limit - 1, day);
    ChecksRun(limit, k, k, actions, day);
    actions := actions + Checks(k, day);
    IncrementsRun(limit, k, k, actions, day);
    actions := actions + Increments(k);
  }
}
