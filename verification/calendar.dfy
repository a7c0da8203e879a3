/**
 Calendar windows: month boundaries (relay/internal/usage/quota.go) and day keys
 (relay/internal/store/billing.go) over the proleptic Gregorian calendar in UTC.
 An instant is a number of nanoseconds since 1970-01-01, of either sign.
 */
module Calendar {

  const DAY: int := 86_400_000_000_000
  const MILLI: int := 1_000_000

  /** UnixMilli: the millisecond an instant falls in. */
  function Millis(t: int): int { t / MILLI }

  function DayOf(t: int): int { t / DAY }

  datatype Date = Date(year: int, month: int, day: int)

  predicate Leap(y: int) { y % 4 == 0 && (y % 100 != 0 || y % 400 == 0) }

  function MonthLength(y: int, m: int): int {
    if m == 2 then (if Leap(y) then 29 else 28)
    else if m == 4 || m == 6 || m == 9 || m == 11 then 30
    else 31
  }

  predicate Valid(d: Date) { 1 <= d.month <= 12 && 1 <= d.day <= MonthLength(d.year, d.month) }

  /** Leap years up to year y. */
  function Leaps(y: int): int { y / 4 - y / 100 + y / 400 }

  /** The day number of January 1st. */
  function YearStart(y: int): int { 365 * (y - 1970) + Leaps(y - 1) - Leaps(1969) }

  function BeforeMonth(y: int, m: int): int {
    if m <= 1 then 0 else BeforeMonth(y, m - 1) + MonthLength(y, m - 1)
  }

  function ToDays(d: Date): int { YearStart(d.year) + BeforeMonth(d.year, d.month) + d.day - 1 }

  lemma Quotient4(n: int, q: int) requires 4 * q <= n < 4 * q + 4 ensures n / 4 == q {}
  lemma Quotient100(n: int, q: int) requires 100 * q <= n < 100 * q + 100 ensures n / 100 == q {}
  lemma Quotient400(n: int, q: int) requires 400 * q <= n < 400 * q + 400 ensures n / 400 == q {}

  lemma YearLength(y: int)
    ensures YearStart(y + 1) - YearStart(y) == if Leap(y) then 366 else 365
  {
    var a, b, c := y / 4, y / 100, y / 400;
    Quotient4(y - 1, if y % 4 == 0 then a - 1 else a);
    Quotient100(y - 1, if y % 100 == 0 then b - 1 else b);
    Quotient400(y - 1, if y % 400 == 0 then c - 1 else c);
    if y % 100 == 0 { Quotient4(y, 25 * b); }
    if y % 400 == 0 { Quotient100(y, 4 * c); }
  }

  lemma {:induction false} YearsAscend(y: int, z: int)
    requires y < z
    ensures YearStart(y) + 365 * (z - y) <= YearStart(z)
    decreases z - y
  {
    YearLength(y);
    if y + 1 < z { YearsAscend(y + 1, z); }
  }

  lemma MonthTable(y: int)
    ensures var l := if Leap(y) then 1 else 0;
            && BeforeMonth(y, 1) == 0 && BeforeMonth(y, 2) == 31 && BeforeMonth(y, 3) == 59 + l
            && BeforeMonth(y, 4) == 90 + l && BeforeMonth(y, 5) == 120 + l && BeforeMonth(y, 6) == 151 + l
            && BeforeMonth(y, 7) == 181 + l && BeforeMonth(y, 8) == 212 + l && BeforeMonth(y, 9) == 243 + l
            && BeforeMonth(y, 10) == 273 + l && BeforeMonth(y, 11) == 304 + l && BeforeMonth(y, 12) == 334 + l
            && BeforeMonth(y, 13) == 365 + l
  {
    assert BeforeMonth(y, 3) == BeforeMonth(y, 2) + MonthLength(y, 2);
    assert BeforeMonth(y, 5) == BeforeMonth(y, 4) + MonthLength(y, 4);
    assert BeforeMonth(y, 7) == BeforeMonth(y, 6) + MonthLength(y, 6);
    assert BeforeMonth(y, 9) == BeforeMonth(y, 8) + MonthLength(y, 8);
    assert BeforeMonth(y, 11) == BeforeMonth(y, 10) + MonthLength(y, 10);
    assert BeforeMonth(y, 13) == BeforeMonth(y, 12) + MonthLength(y, 12);
  }

  /** The civil year of a day: an estimate from the mean year length, corrected by at most one. */
  function YearOf(n: int): (y: int)
    ensures YearStart(y) <= n < YearStart(y + 1)
  {
    var y := 1970 + n * 400 / 146097;
    MeanYear(n);
    if n < YearStart(y) then y - 1 else if n >= YearStart(y + 1) then y + 1 else y
  }

  lemma MeanYear(n: int)
    ensures var y := 1970 + n * 400 / 146097; YearStart(y - 1) <= n < YearStart(y + 2)
  {
    var q := n * 400 / 146097;
    assert 146097 * q <= n * 400 < 146097 * q + 146097;
    LeapsBound(1970 + q - 2);
    LeapsBound(1970 + q + 1);
  }

  lemma LeapsBound(y: int)
    ensures 97 * y - 699 <= 400 * Leaps(y) <= 97 * y + 396
  {
    var a, b, c := y / 4, y / 100, y / 400;
    LinearBound(y, a, b, c);
  }

  lemma LinearBound(y: int, a: int, b: int, c: int)
    requires y - 3 <= 4 * a <= y && y - 99 <= 100 * b <= y && y - 399 <= 400 * c <= y
    ensures 97 * y - 699 <= 400 * (a - b + c) <= 97 * y + 396
  {
  }

  function FromDays(n: int): (d: Date)
    ensures Valid(d) && ToDays(d) == n
  {
    var y := YearOf(n);
    var k := n - YearStart(y);
    YearLength(y);
    MonthTable(y);
    var m :=
      if k < BeforeMonth(y, 2) then 1 else if k < BeforeMonth(y, 3) then 2
      else if k < BeforeMonth(y, 4) then 3 else if k < BeforeMonth(y, 5) then 4
      else if k < BeforeMonth(y, 6) then 5 else if k < BeforeMonth(y, 7) then 6
      else if k < BeforeMonth(y, 8) then 7 else if k < BeforeMonth(y, 9) then 8
      else if k < BeforeMonth(y, 10) then 9 else if k < BeforeMonth(y, 11) then 10
      else if k < BeforeMonth(y, 12) then 11 else 12;
    Date(y, m, k - BeforeMonth(y, m) + 1)
  }

  // ----- order of dates -----

  predicate Before(a: Date, b: Date) {
    a.year < b.year || (a.year == b.year && (a.month < b.month || (a.month == b.month && a.day < b.day)))
  }

  lemma {:induction false} MonthsAscend(y: int, m: int, k: int)
    requires 1 <= m < k <= 13
    ensures BeforeMonth(y, m) + MonthLength(y, m) <= BeforeMonth(y, k)
    decreases k - m
  {
    if m + 1 < k { MonthsAscend(y, m, k - 1); }
  }

  lemma DayInYear(d: Date)
    requires Valid(d)
    ensures YearStart(d.year) <= ToDays(d) < YearStart(d.year + 1)
  {
    MonthTable(d.year);
    YearLength(d.year);
  }

  /** Day numbers follow the order of dates. */
  lemma DaysAscend(a: Date, b: Date)
    requires Valid(a) && Valid(b) && Before(a, b)
    ensures ToDays(a) < ToDays(b)
  {
    DayInYear(a);
    DayInYear(b);
    if a.year < b.year {
      if a.year + 1 < b.year { YearsAscend(a.year + 1, b.year); }
    } else if a.month < b.month {
      MonthsAscend(a.year, a.month, b.month);
    }
  }

  /** A day has one date: reading the date of a date's day gives it back. */
  lemma DateRoundTrip(d: Date)
    requires Valid(d)
    ensures FromDays(ToDays(d)) == d
  {
    var e := FromDays(ToDays(d));
    if Before(d, e) { DaysAscend(d, e); }
    if Before(e, d) { DaysAscend(e, d); }
  }

  // ----- the civil calendar, day by day -----

  lemma EpochIsDayZero()
    ensures ToDays(Date(1970, 1, 1)) == 0
  {
    assert BeforeMonth(1970, 1) == 0;
  }

  /** Day 0 is the first of January 1970. */
  lemma Epoch()
    ensures FromDays(0) == Date(1970, 1, 1)
  {
    EpochIsDayZero();
    DateRoundTrip(Date(1970, 1, 1));
  }

  lemma LeapRule(y: int)
    ensures Leap(y) <==> y % 400 == 0 || (y % 4 == 0 && y % 100 != 0)
  {
    if y % 400 == 0 { assert y == 4 * (100 * (y / 400)); }
  }

  /** e is the date after d, by the rules of the Gregorian calendar. */
  predicate Follows(d: Date, e: Date) {
    var leap := d.year % 400 == 0 || (d.year % 4 == 0 && d.year % 100 != 0);
    var last := if d.month == 2 then (if leap then 29 else 28) else if d.month in {4, 6, 9, 11} then 30 else 31;
    && 1 <= d.month <= 12 && 1 <= d.day <= last
    && e == if d.day < last then Date(d.year, d.month, d.day + 1)
            else if d.month < 12 then Date(d.year, d.month + 1, 1)
            else Date(d.year + 1, 1, 1)
  }

  lemma FollowerIsNext(d: Date) returns (e: Date)
    requires Valid(d)
    ensures Follows(d, e) && Valid(e) && ToDays(e) == ToDays(d) + 1
  {
    LeapRule(d.year);
    if d.day < MonthLength(d.year, d.month) {
      e := Date(d.year, d.month, d.day + 1);
    } else {
      MonthIsLong(d);
      e := FirstOfNext(d);
    }
  }

  /** Each day has the date that follows the date of the day before: with the epoch, that is the whole
      calendar. */
  lemma NextDay(n: int)
    ensures Follows(FromDays(n), FromDays(n + 1))
  {
    var d := FromDays(n);
    var e := FollowerIsNext(d);
    OneDate(e, n + 1);
  }

  lemma OneDate(d: Date, n: int)
    requires Valid(d) && ToDays(d) == n
    ensures FromDays(n) == d
  {
    DateRoundTrip(d);
  }

  /** A day number counts whole days of 86 400 seconds, a millisecond whole ones too; both round down. */
  lemma WholeDays(t: int)
    ensures DayOf(t) * 86_400 * 1_000_000_000 <= t < (DayOf(t) + 1) * 86_400 * 1_000_000_000
    ensures Millis(t) * 1_000_000 <= t < (Millis(t) + 1) * 1_000_000
  {}

  // ----- DayKey -----

  function KeyOf(d: Date): int { d.year * 10000 + d.month * 100 + d.day }

  function DayKey(t: int): int { KeyOf(FromDays(DayOf(t))) }

  lemma KeysAscend(a: Date, b: Date)
    requires Valid(a) && Valid(b) && Before(a, b)
    ensures KeyOf(a) < KeyOf(b)
  {
  }

  /** The decimal digits of a key are year, month and day. */
  lemma KeyDigits(t: int)
    ensures var d := FromDays(DayOf(t));
            DayKey(t) / 10000 == d.year && DayKey(t) % 10000 / 100 == d.month && DayKey(t) % 100 == d.day
  {
    var d := FromDays(DayOf(t));
    Digits(d.year, d.month, d.day);
  }

  lemma Digits(y: int, m: int, d: int)
    requires 1 <= m <= 12 && 1 <= d <= 31
    ensures var k := y * 10000 + m * 100 + d; k / 10000 == y && k % 10000 / 100 == m && k % 100 == d
  {
    Remainder10000(y * 10000 + m * 100 + d, y, m * 100 + d);
    Remainder100(m * 100 + d, m, d);
    Remainder100(y * 10000 + m * 100 + d, y * 100 + m, d);
  }

  lemma Remainder10000(k: int, q: int, r: int) requires k == q * 10000 + r && 0 <= r < 10000 ensures k / 10000 == q && k % 10000 == r {}
  lemma Remainder100(k: int, q: int, r: int) requires k == q * 100 + r && 0 <= r < 100 ensures k / 100 == q && k % 100 == r {}

  /** Keys order days exactly as the calendar does, in every year. */
  lemma DayKeyOrder(m: int, n: int)
    ensures m < n <==> KeyOf(FromDays(m)) < KeyOf(FromDays(n))
  {
    var a, b := FromDays(m), FromDays(n);
    if Before(a, b) { DaysAscend(a, b); KeysAscend(a, b); }
    if Before(b, a) { DaysAscend(b, a); KeysAscend(b, a); }
  }

  // ----- month windows -----

  function FirstOfMonth(d: Date): Date { Date(d.year, d.month, 1) }

  // time.Date carries month 13 into January of the next year.
  function FirstOfNext(d: Date): Date {
    if d.month == 12 then Date(d.year + 1, 1, 1) else Date(d.year, d.month + 1, 1)
  }

  function StartOfMonth(t: int): int { ToDays(FirstOfMonth(FromDays(DayOf(t)))) * DAY }

  function NextMonth(t: int): int { ToDays(FirstOfNext(FromDays(DayOf(t)))) * DAY }

  lemma MonthIsLong(d: Date)
    requires Valid(d)
    ensures ToDays(FirstOfNext(d)) - ToDays(FirstOfMonth(d)) == MonthLength(d.year, d.month)
  {
    MonthTable(d.year);
    MonthTable(d.year + 1);
    YearLength(d.year);
  }

  /** A month's window runs from midnight on its first to midnight on the first of the next. */
  lemma MonthBounds(t: int)
    ensures var d, first, next := FromDays(DayOf(t)), FromDays(DayOf(StartOfMonth(t))), FromDays(DayOf(NextMonth(t)));
            && first == Date(d.year, d.month, 1)
            && next == (if d.month == 12 then Date(d.year + 1, 1, 1) else Date(d.year, d.month + 1, 1))
            && StartOfMonth(t) % 86_400_000_000_000 == 0 && NextMonth(t) % 86_400_000_000_000 == 0
  {
    var d := FromDays(DayOf(t));
    DayOfMidnight(ToDays(FirstOfMonth(d)));
    DayOfMidnight(ToDays(FirstOfNext(d)));
    DateRoundTrip(FirstOfMonth(d));
    DateRoundTrip(FirstOfNext(d));
  }

  /** Every instant lies in its month, and a month lasts 28 to 31 days. */
  lemma MonthWindow(t: int)
    ensures StartOfMonth(t) <= t < NextMonth(t)
    ensures 28 * DAY <= NextMonth(t) - StartOfMonth(t) <= 31 * DAY
  {
    var d := FromDays(DayOf(t));
    MonthIsLong(d);
    DayBounds(t, ToDays(FirstOfMonth(d)), ToDays(FirstOfNext(d)));
  }

  lemma DayBounds(t: int, first: int, next: int)
    requires first <= DayOf(t) < next
    ensures first * DAY <= t < next * DAY
  {
    var n := t / DAY;
    assert n * DAY <= t < n * DAY + DAY;
    assert first * DAY <= n * DAY && (n + 1) * DAY <= next * DAY;
  }

  lemma DayOfMidnight(n: int)
    ensures DayOf(n * DAY) == n
  {
  }

  /** The same about days: one month's days, and the order of months. */
  lemma MonthDaysPartition(a: Date, b: Date)
    requires Valid(a) && Valid(b)
    ensures ToDays(FirstOfMonth(a)) == ToDays(FirstOfMonth(b)) <==>
            ToDays(FirstOfMonth(a)) <= ToDays(b) < ToDays(FirstOfNext(a))
    ensures ToDays(b) >= ToDays(FirstOfNext(a)) ==> ToDays(FirstOfMonth(b)) >= ToDays(FirstOfNext(a))
  {
    MonthIsLong(a);
    MonthIsLong(b);
    if a.year != b.year || a.month != b.month {
      if Before(a, b) { LaterMonth(a, b); } else { LaterMonth(b, a); }
    }
  }

  lemma DayCompare(t: int, n: int)
    ensures n * DAY <= t <==> n <= DayOf(t)
  {
    var d := t / DAY;
    assert d * DAY <= t < d * DAY + DAY;
    if n <= d { assert n * DAY <= d * DAY; } else { assert (d + 1) * DAY <= n * DAY; }
  }

  /** Months partition time: two instants share a month exactly when one lies in the other's window. */
  lemma MonthsPartition(t: int, u: int)
    ensures StartOfMonth(t) == StartOfMonth(u) <==> StartOfMonth(t) <= u < NextMonth(t)
    ensures u >= NextMonth(t) ==> StartOfMonth(u) >= NextMonth(t)
  {
    var a, b := FromDays(DayOf(t)), FromDays(DayOf(u));
    MonthDaysPartition(a, b);
    WindowsCompare(u, ToDays(FirstOfMonth(a)), ToDays(FirstOfNext(a)), ToDays(FirstOfMonth(b)));
  }

  lemma WindowsCompare(u: int, first: int, next: int, other: int)
    ensures first * DAY == other * DAY <==> first == other
    ensures first * DAY <= u < next * DAY <==> first <= DayOf(u) < next
    ensures u >= next * DAY <==> DayOf(u) >= next
    ensures other * DAY >= next * DAY <==> other >= next
  {
    DayCompare(u, first);
    DayCompare(u, next);
  }

  lemma LaterMonth(x: Date, y: Date)
    requires Valid(x) && Valid(y) && Before(x, y) && (x.year != y.year || x.month != y.month)
    ensures ToDays(FirstOfNext(x)) <= ToDays(FirstOfMonth(y))
  {
    var f, g := FirstOfNext(x), FirstOfMonth(y);
    if Before(f, g) { DaysAscend(f, g); }
  }

  /** The next month begins a month, and later instants never have an earlier month. */
  lemma NextMonthStarts(t: int)
    ensures StartOfMonth(NextMonth(t)) == NextMonth(t)
  {
    var f := FirstOfNext(FromDays(DayOf(t)));
    DayOfMidnight(ToDays(f));
    DateRoundTrip(f);
  }

  lemma MonthsAreMonotone(t: int, u: int)
    requires t <= u
    ensures StartOfMonth(t) <= StartOfMonth(u)
  {
    MonthWindow(t);
    MonthsPartition(t, u);
  }
}
