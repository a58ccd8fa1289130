/** Abstract timestamps. A `createdAt` column or a JavaScript `Date` is
    modelled by its local calendar year, its month (0 = January, as
    `Date.getMonth()` numbers them) and an offset within that month; the
    conversion from epoch milliseconds, time zones and day arithmetic are
    not modelled. */
module Calendar {

  type Month = m: int | 0 <= m < 12

  datatype Instant = Instant(year: int, month: Month, offset: nat)

  datatype YearMonth = YearMonth(year: int, month: Month)

  /** Months counted from January of year 0, so that consecutive months
      have consecutive ordinals. */
  function Ordinal(ym: YearMonth): int {
    ym.year * 12 + ym.month
  }

  function FromOrdinal(n: int): (ym: YearMonth)
    ensures Ordinal(ym) == n
  {
    YearMonth(n / 12, n % 12)
  }

  lemma OrdinalInjective(a: YearMonth, b: YearMonth)
    requires Ordinal(a) == Ordinal(b)
    ensures a == b
  {
    assert a.year == Ordinal(a) / 12 && b.year == Ordinal(b) / 12;
  }

  function MonthOf(t: Instant): YearMonth {
    YearMonth(t.year, t.month)
  }

  /** 00:00 on day 1 of the month. */
  function StartOf(ym: YearMonth): Instant {
    Instant(ym.year, ym.month, 0)
  }

  /** `a >= b` on timestamps. */
  predicate AtOrAfter(a: Instant, b: Instant) {
    a.year > b.year
    || (a.year == b.year && a.month > b.month)
    || (a.year == b.year && a.month == b.month && a.offset >= b.offset)
  }

  /** `t >= start of month ym` holds exactly for the instants of month `ym` and later months. */
  lemma AtOrAfterStartOf(t: Instant, ym: YearMonth)
    ensures AtOrAfter(t, StartOf(ym)) <==> Ordinal(MonthOf(t)) >= Ordinal(ym)
  {
  }

  /** The month `i` months before month `now`: what the six-month chart
      means by `date.setMonth(date.getMonth() - i)`. */
  function MonthsBefore(now: YearMonth, i: int): (ym: YearMonth)
    ensures Ordinal(ym) == Ordinal(now) - i
  {
    FromOrdinal(Ordinal(now) - i)
  }

  /** A calendar day of the proleptic Gregorian calendar. */
  datatype Date = Date(year: int, month: Month, day: int)

  predicate IsLeapYear(year: int) {
    (year % 4 == 0 && year % 100 != 0) || year % 400 == 0
  }

  function DaysIn(year: int, month: Month): (n: int)
    ensures 28 <= n <= 31
  {
    if month == 1 then (if IsLeapYear(year) then 29 else 28)
    else if month == 3 || month == 5 || month == 8 || month == 10 then 30
    else 31
  }

  predicate ValidDate(d: Date) {
    1 <= d.day <= DaysIn(d.year, d.month)
  }

  /** `d.setMonth(m)`: the month index `m` may lie outside 0..11 and moves
      the year; the day of the month is kept, and a day the target month
      does not have runs over into the following month. */
  function SetMonth(d: Date, m: int): (r: Date)
    requires ValidDate(d)
    ensures ValidDate(r)
  {
    var target := FromOrdinal(d.year * 12 + m);
    var length := DaysIn(target.year, target.month);
    if d.day <= length then Date(target.year, target.month, d.day)
    else
      var next := FromOrdinal(Ordinal(target) + 1);
      Date(next.year, next.month, d.day - length)
  }

  /** The month of `date.setMonth(date.getMonth() - i)` with `date` today,
      as the six-month chart computes it. */
  function MonthsBeforeAsWritten(today: Date, i: int): YearMonth
    requires ValidDate(today)
  {
    var d := SetMonth(today, today.month - i);
    YearMonth(d.year, d.month)
  }

  /** On 31 March, "one month back" lands on 3 March and "four months
      back" on 1 December: the chart reads October, December, December,
      January, March, March, leaving out November and February. */
  lemma MonthsBeforeAsWrittenRepeatsMonth()
    ensures ValidDate(Date(2025, 2, 31))
    ensures MonthsBeforeAsWritten(Date(2025, 2, 31), 1) == MonthsBeforeAsWritten(Date(2025, 2, 31), 0) == YearMonth(2025, 2)
    ensures MonthsBefore(YearMonth(2025, 2), 1) == YearMonth(2025, 1)
    ensures MonthsBeforeAsWritten(Date(2025, 2, 31), 4) == MonthsBeforeAsWritten(Date(2025, 2, 31), 3) == YearMonth(2024, 11)
    ensures MonthsBefore(YearMonth(2025, 2), 4) == YearMonth(2024, 10)
  {
    assert FromOrdinal(2025 * 12 - 2) == YearMonth(2024, 10);
    assert FromOrdinal(2025 * 12 - 1) == YearMonth(2024, 11);
    assert FromOrdinal(2025 * 12 + 1) == YearMonth(2025, 1);
    assert FromOrdinal(2025 * 12 + 2) == YearMonth(2025, 2);
    assert !IsLeapYear(2025);
  }

  /** Up to the 28th of the month the code as written and the intended
      month agree for every `i`. */
  lemma MonthsBeforeAsWrittenEarlyInMonth(today: Date, i: int)
    requires ValidDate(today) && today.day <= 28
    ensures MonthsBeforeAsWritten(today, i) == MonthsBefore(YearMonth(today.year, today.month), i)
  {
    OrdinalInjective(MonthsBeforeAsWritten(today, i), MonthsBefore(YearMonth(today.year, today.month), i));
  }

  /** The labels of `monthNames` in the finance page. */
  function MonthName(m: Month): string {
    ["Jan", "Feb", "Mar", "Apr", "May", "Jun", "Jul", "Aug", "Sep", "Oct", "Nov", "Dec"][m]
  }

  /** The database's `orderBy: { createdAt: 'desc' }`: each row is at least as new as every later row. */
  ghost predicate NewestFirst<T>(s: seq<T>, stamp: T -> Instant) {
    forall i, j :: 0 <= i < j < |s| ==> AtOrAfter(stamp(s[i]), stamp(s[j]))
  }

  /** One ordering that `orderBy: { createdAt: 'desc' }` may return
      (rows with equal timestamps keep their table order). */
  function SortNewestFirst<T(==)>(s: seq<T>, stamp: T -> Instant): (r: seq<T>)
    ensures NewestFirst(r, stamp)
    ensures multiset(r) == multiset(s)
  {
    if s == [] then []
    else
      assert s == [s[0]] + s[1..];
      InsertByStamp(s[0], SortNewestFirst(s[1..], stamp), stamp)
  }

  function InsertByStamp<T(==)>(x: T, s: seq<T>, stamp: T -> Instant): (r: seq<T>)
    requires NewestFirst(s, stamp)
    ensures NewestFirst(r, stamp)
    ensures multiset(r) == multiset(s) + multiset{x}
  {
    if s == [] then [x]
    else if AtOrAfter(stamp(x), stamp(s[0])) then
      PrependNewest(x, s, stamp);
      [x] + s
    else
      var rest := InsertByStamp(x, s[1..], stamp);
      assert s == [s[0]] + s[1..];
      HeadOlderThanInserted(x, s, rest, stamp);
      PrependNewest(s[0], rest, stamp);
      [s[0]] + rest
  }

  lemma AtOrAfterTransitive(a: Instant, b: Instant, c: Instant)
    requires AtOrAfter(a, b) && AtOrAfter(b, c)
    ensures AtOrAfter(a, c)
  {
  }

  /** When `x` is older than the head of `s`, the head is at least as new as
      every element of the tail with `x` inserted. */
  lemma HeadOlderThanInserted<T>(x: T, s: seq<T>, rest: seq<T>, stamp: T -> Instant)
    requires NewestFirst(s, stamp) && s != [] && !AtOrAfter(stamp(x), stamp(s[0]))
    requires multiset(rest) == multiset(s[1..]) + multiset{x}
    ensures rest != [] ==> AtOrAfter(stamp(s[0]), stamp(rest[0]))
  {
    if rest != [] && rest[0] != x {
      assert rest[0] in multiset(rest);
      assert rest[0] in multiset(s[1..]);
      var k :| 0 <= k < |s[1..]| && s[1..][k] == rest[0];
      assert s[k + 1] == rest[0];
    }
  }

  /** An element at least as new as the first of a newest-first sequence
      can go in front of it. */
  lemma PrependNewest<T>(x: T, s: seq<T>, stamp: T -> Instant)
    requires NewestFirst(s, stamp)
    requires s != [] ==> AtOrAfter(stamp(x), stamp(s[0]))
    ensures NewestFirst([x] + s, stamp)
  {
    var r := [x] + s;
    forall i, j | 0 <= i < j < |r| ensures AtOrAfter(stamp(r[i]), stamp(r[j])) {
      if i == 0 && j > 1 {
        assert r[j] == s[j - 1];
        AtOrAfterTransitive(stamp(x), stamp(s[0]), stamp(s[j - 1]));
      } else if i > 0 {
        assert r[i] == s[i - 1] && r[j] == s[j - 1];
      }
    }
  }
}
