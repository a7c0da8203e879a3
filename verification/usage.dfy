/**
 The daily usage counters (relay/internal/store/billing.go): the usage_daily
 table keyed by user and day, its upsert, and the sums over a period.
 */
module UsageDaily {
  import opened Calendar

  datatype Row = Row(user: string, day: int, messages: int, bytes: int)

  /** The primary key. */
  ghost predicate Keyed(rows: seq<Row>) {
    forall i, j :: 0 <= i < j < |rows| ==> rows[i].user != rows[j].user || rows[i].day != rows[j].day
  }

  /** The key of a civil day. */
  function CivilKey(n: int): int { KeyOf(FromDays(n)) }

  /** A numbering of days that keeps their order. */
  ghost predicate OrderKeeping(key: int -> int) {
    forall m, n :: m < n <==> key(m) < key(n)
  }

  /** Every row's day is the key of some day, as writers that go through DayKey produce. */
  ghost predicate DayKeysOnly(rows: seq<Row>, key: int -> int) {
    forall i :: 0 <= i < |rows| ==> exists n :: key(n) == rows[i].day
  }

  lemma CivilKeysKeepOrder()
    ensures OrderKeeping(CivilKey)
  {
    forall m, n ensures m < n <==> CivilKey(m) < CivilKey(n) { DayKeyOrder(m, n); }
  }

  /** The row of a user and day, zero if there is none. */
  function RowFor(rows: seq<Row>, user: string, day: int): Row {
    if rows == [] then Row(user, day, 0, 0)
    else
      var r := rows[|rows| - 1];
      if r.user == user && r.day == day then r else RowFor(rows[..|rows| - 1], user, day)
  }

  /** SELECT SUM(messages), SUM(bytes) ... WHERE user_id = ? AND day BETWEEN lo AND hi. */
  function SumBetween(rows: seq<Row>, user: string, lo: int, hi: int): (int, int) {
    if rows == [] then (0, 0)
    else
      var r, s := rows[|rows| - 1], SumBetween(rows[..|rows| - 1], user, lo, hi);
      if r.user == user && lo <= r.day <= hi then (s.0 + r.messages, s.1 + r.bytes) else s
  }

  /** The sum of the user's rows over the days first..last, by key. */
  function SumOfDays(rows: seq<Row>, user: string, key: int -> int, first: int, last: int): (int, int)
    decreases last - first
  {
    if first > last then (0, 0)
    else
      var r, s := RowFor(rows, user, key(first)), SumOfDays(rows, user, key, first + 1, last);
      (r.messages + s.0, r.bytes + s.1)
  }

  /** The key range query adds up exactly the civil days of the period. */
  lemma PeriodSumIsDaySum(rows: seq<Row>, user: string, first: int, last: int)
    requires Keyed(rows) && DayKeysOnly(rows, CivilKey)
    ensures SumBetween(rows, user, CivilKey(first), CivilKey(last)) == SumOfDays(rows, user, CivilKey, first, last)
  {
    CivilKeysKeepOrder();
    RangeSumIsDaySum(rows, user, CivilKey, first, last);
  }

  lemma {:induction false} RangeSumIsDaySum(rows: seq<Row>, user: string, key: int -> int, first: int, last: int)
    requires Keyed(rows) && DayKeysOnly(rows, key) && OrderKeeping(key)
    ensures SumBetween(rows, user, key(first), key(last)) == SumOfDays(rows, user, key, first, last)
  {
    if rows == [] {
      NoRowsNoSum(user, key, first, last);
    } else {
      var init, r := rows[..|rows| - 1], rows[|rows| - 1];
      assert forall i :: 0 <= i < |init| ==> init[i] == rows[i];
      RangeSumIsDaySum(init, user, key, first, last);
      var n :| key(n) == r.day;
      OneRowMore(rows, user, key, n, first, last);
    }
  }

  lemma {:induction false} NoRowsNoSum(user: string, key: int -> int, first: int, last: int)
    ensures SumOfDays([], user, key, first, last) == (0, 0)
    decreases last - first
  {
    if first <= last { NoRowsNoSum(user, key, first + 1, last); }
  }

  lemma {:induction false} OneRowMore(rows: seq<Row>, user: string, key: int -> int, n: int, first: int, last: int)
    requires Keyed(rows) && OrderKeeping(key) && rows != [] && rows[|rows| - 1].day == key(n)
    ensures var init, r := rows[..|rows| - 1], rows[|rows| - 1];
            var s := SumOfDays(init, user, key, first, last);
            SumOfDays(rows, user, key, first, last) ==
            if r.user == user && first <= n <= last then (s.0 + r.messages, s.1 + r.bytes) else s
    decreases last - first
  {
    if first <= last {
      OneRowMore(rows, user, key, n, first + 1, last);
      NoSuchRow(rows[..|rows| - 1], rows[|rows| - 1].user, rows[|rows| - 1].day);
    }
  }

  lemma {:induction false} NoSuchRow(rows: seq<Row>, user: string, day: int)
    requires forall i :: 0 <= i < |rows| ==> rows[i].user != user || rows[i].day != day
    ensures RowFor(rows, user, day) == Row(user, day, 0, 0)
  {
    if rows != [] { NoSuchRow(rows[..|rows| - 1], user, day); }
  }

  class Usage {
    var rows: seq<Row>

    ghost predicate Valid() reads this { Keyed(rows) }

    constructor ()
      ensures Valid() && rows == []
    { rows := []; }

    // INSERT ... ON CONFLICT(user_id, day) DO UPDATE: one row per user and day, counters added.
    method IncrementBoth(user: string, day: int, messages: int, bytes: int)
      requires Valid()
      modifies this
      ensures Valid()
      ensures forall u, d :: RowFor(rows, u, d) ==
                (var was := RowFor(old(rows), u, d);
                 if u == user && d == day then Row(u, d, was.messages + messages, was.bytes + bytes) else was)
      ensures forall r :: r in rows ==> r.day == day || r in old(rows)
    {
      var k := 0;
      while k < |rows| && !(rows[k].user == user && rows[k].day == day)
        invariant k <= |rows|
        invariant forall i :: 0 <= i < k ==> rows[i].user != user || rows[i].day != day
      {
        k := k + 1;
      }
      if k < |rows| {
        var r := Row(user, day, rows[k].messages + messages, rows[k].bytes + bytes);
        forall u, d { UpdatedRow(rows, k, r, u, d); }
        rows := rows[k := r];
      } else {
        NoSuchRow(rows, user, day);
        assert (rows + [Row(user, day, messages, bytes)])[..|rows|] == rows;
        rows := rows + [Row(user, day, messages, bytes)];
      }
    }

    // SELECT messages ... WHERE user_id = ? AND day = ?: the one row of the key, or no row and 0.
    method MessagesForDay(user: string, day: int) returns (n: int)
      requires Valid()
      ensures forall r :: r in rows && r.user == user && r.day == day ==> n == r.messages
      ensures (forall r :: r in rows ==> r.user != user || r.day != day) ==> n == 0
      ensures n == RowFor(rows, user, day).messages
    {
      for i := 0 to |rows|
        invariant forall k :: 0 <= k < i ==> rows[k].user != user || rows[k].day != day
      {
        if rows[i].user == user && rows[i].day == day {
          UpdatedRow(rows, i, rows[i], user, day);
          return rows[i].messages;
        }
      }
      NoSuchRow(rows, user, day);
      n := 0;
    }

    method MessagesForPeriod(user: string, startDay: int, endDay: int) returns (n: int)
      ensures n == SumBetween(rows, user, startDay, endDay).0
    {
      n := 0;
      for i := 0 to |rows|
        invariant n == SumBetween(rows[..i], user, startDay, endDay).0
      {
        assert rows[..i + 1][..i] == rows[..i];
        if rows[i].user == user && startDay <= rows[i].day <= endDay { n := n + rows[i].messages; }
      }
      assert rows[..|rows|] == rows;
    }
  }

  lemma {:induction false} UpdatedRow(rows: seq<Row>, k: nat, r: Row, user: string, day: int)
    requires k < |rows| && r.user == rows[k].user && r.day == rows[k].day
    requires forall i, j :: 0 <= i < j < |rows| ==> rows[i].user != rows[j].user || rows[i].day != rows[j].day
    ensures RowFor(rows[k := r], user, day) == if user == r.user && day == r.day then r else RowFor(rows, user, day)
    ensures user == r.user && day == r.day ==> RowFor(rows, user, day) == rows[k]
  {
    if k == |rows| - 1 {
      assert rows[k := r][..k] == rows[..k];
    } else {
      UpdatedRow(rows[..|rows| - 1], k, r, user, day);
      assert rows[k := r][..|rows| - 1] == rows[..|rows| - 1][k := r];
    }
  }
}
