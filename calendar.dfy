/** Calendar arithmetic on day numbers of the proleptic Gregorian calendar.
    Day 0 is 1970-01-01, a Thursday; a JavaScript `Date` set to midnight is
    one day number. Months are numbered 0..11 and weekdays 0..6 from Sunday,
    as `Date.prototype.getMonth` and `getDay` number them. */
module Calendar {
  import opened Common

  const MsPerDay: int := 86400000

  /** The day number containing the instant `ms` milliseconds after the epoch. */
  function DayOf(ms: int): (d: int)
    ensures d * MsPerDay <= ms < (d + 1) * MsPerDay
  {
    ms / MsPerDay
  }

  /** `getDay()`: 0 is Sunday, 4 is Thursday. */
  function Weekday(day: int): (w: int)
    ensures 0 <= w < 7
  {
    (day + 4) % 7
  }

  predicate IsLeap(y: int) {
    y % 4 == 0 && (y % 100 != 0 || y % 400 == 0)
  }

  function YearLength(y: int): int {
    if IsLeap(y) then 366 else 365
  }

  function DaysInMonth(y: int, m: int): (n: int)
    requires 0 <= m < 12
    ensures 28 <= n <= 31
  {
    if m == 1 then (if IsLeap(y) then 29 else 28)
    else if m == 3 || m == 5 || m == 8 || m == 10 then 30
    else 31
  }

  /** Days of year `y` that precede month `m`; `m == 12` gives the whole year. */
  function DaysBeforeMonth(y: int, m: int): int
    requires 0 <= m <= 12
  {
    var common :=
      if m == 0 then 0 else if m == 1 then 31 else if m == 2 then 59
      else if m == 3 then 90 else if m == 4 then 120 else if m == 5 then 151
      else if m == 6 then 181 else if m == 7 then 212 else if m == 8 then 243
      else if m == 9 then 273 else if m == 10 then 304 else if m == 11 then 334
      else 365;
    common + (if m >= 2 && IsLeap(y) then 1 else 0)
  }

  lemma DaysBeforeMonthStep(y: int, m: int)
    requires 0 <= m < 12
    ensures DaysBeforeMonth(y, m + 1) == DaysBeforeMonth(y, m) + DaysInMonth(y, m)
  {
  }

  lemma {:induction false} DaysBeforeMonthMonotone(y: int, a: int, b: int)
    requires 0 <= a <= b <= 12
    ensures DaysBeforeMonth(y, a) + 28 * (b - a) <= DaysBeforeMonth(y, b)
    decreases b - a
  {
    if a < b {
      DaysBeforeMonthStep(y, a);
      DaysBeforeMonthMonotone(y, a + 1, b);
    }
  }

  /** Leap years among the years before `y` (counted from year 1). */
  function LeapsBefore(y: int): int {
    (y - 1) / 4 - (y - 1) / 100 + (y - 1) / 400
  }

  /** The day number of January 1st of year `y`. */
  function YearStart(y: int): int {
    365 * (y - 1970) + LeapsBefore(y) - 477
  }

  lemma YearStartStep(y: int)
    ensures YearStart(y + 1) == YearStart(y) + YearLength(y)
  {
    DivStep4(y);
    DivStep100(y);
    DivStep400(y);
  }

  lemma DivStep4(y: int)
    ensures y / 4 - (y - 1) / 4 == if y % 4 == 0 then 1 else 0
  {
  }

  lemma DivStep100(y: int)
    ensures y / 100 - (y - 1) / 100 == if y % 100 == 0 then 1 else 0
  {
  }

  lemma DivStep400(y: int)
    ensures y / 400 - (y - 1) / 400 == if y % 400 == 0 then 1 else 0
  {
  }

  lemma {:induction false} YearStartMonotone(a: int, b: int)
    requires a <= b
    ensures YearStart(a) + 365 * (b - a) <= YearStart(b)
    decreases b - a
  {
    if a < b {
      YearStartStep(a);
      YearStartMonotone(a + 1, b);
    }
  }

  /** A calendar date: `month` in 0..11, `day` from 1. */
  datatype Civil = Civil(year: int, month: int, day: int)

  predicate ValidCivil(c: Civil) {
    0 <= c.month < 12 && 1 <= c.day <= DaysInMonth(c.year, c.month)
  }

  function DayNumber(c: Civil): int
    requires ValidCivil(c)
  {
    YearStart(c.year) + DaysBeforeMonth(c.year, c.month) + c.day - 1
  }

  /** A date lies inside its own year. */
  lemma DayNumberInYear(c: Civil)
    requires ValidCivil(c)
    ensures YearStart(c.year) <= DayNumber(c) < YearStart(c.year + 1)
  {
    DaysBeforeMonthStep(c.year, c.month);
    DaysBeforeMonthMonotone(c.year, c.month + 1, 12);
    YearStartStep(c.year);
  }

  /** Dates with the same day number are in the same year. */
  lemma SameDayNumberSameYear(c1: Civil, c2: Civil)
    requires ValidCivil(c1) && ValidCivil(c2)
    requires DayNumber(c1) == DayNumber(c2)
    ensures c1.year == c2.year
  {
    DayNumberInYear(c1);
    DayNumberInYear(c2);
    if c1.year < c2.year {
      YearStartMonotone(c1.year + 1, c2.year);
    } else if c2.year < c1.year {
      YearStartMonotone(c2.year + 1, c1.year);
    }
  }

  /** Distinct valid dates have distinct day numbers. */
  lemma DayNumberInjective(c1: Civil, c2: Civil)
    requires ValidCivil(c1) && ValidCivil(c2)
    requires DayNumber(c1) == DayNumber(c2)
    ensures c1 == c2
  {
    SameDayNumberSameYear(c1, c2);
    var y := c1.year;
    DaysBeforeMonthStep(y, c1.month);
    DaysBeforeMonthStep(y, c2.month);
    if c1.month < c2.month {
      DaysBeforeMonthMonotone(y, c1.month + 1, c2.month);
    } else if c2.month < c1.month {
      DaysBeforeMonthMonotone(y, c2.month + 1, c1.month);
    }
  }

  function YearUp(n: int, y: int): (r: int)
    requires YearStart(y) <= n
    ensures YearStart(r) <= n < YearStart(r + 1)
    decreases n - YearStart(y)
  {
    YearStartStep(y);
    if n < YearStart(y + 1) then y else YearUp(n, y + 1)
  }

  function YearDown(n: int, y: int): (r: int)
    requires n < YearStart(y + 1)
    ensures YearStart(r) <= n < YearStart(r + 1)
    decreases YearStart(y + 1) - n
  {
    YearStartStep(y);
    if YearStart(y) <= n then y else YearDown(n, y - 1)
  }

  /** The year containing day `n`, searched from an estimate. */
  function YearOf(n: int): (y: int)
    ensures YearStart(y) <= n < YearStart(y + 1)
  {
    var e := 1970 + n * 400 / 146097;
    if YearStart(e) <= n then YearUp(n, e) else YearDown(n, e - 1)
  }

  function MonthUp(y: int, doy: int, m: int): (r: int)
    requires 0 <= m < 12 && DaysBeforeMonth(y, m) <= doy < YearLength(y)
    ensures 0 <= r < 12 && DaysBeforeMonth(y, r) <= doy < DaysBeforeMonth(y, r + 1)
    decreases 12 - m
  {
    if doy < DaysBeforeMonth(y, m + 1) then m else MonthUp(y, doy, m + 1)
  }

  /** No month starts later than 31 days per preceding month, so `doy / 31`
      never overshoots the month containing day `doy` of the year. */
  lemma MonthEstimate(y: int, doy: int)
    requires 0 <= doy < YearLength(y)
    ensures 0 <= doy / 31 < 12 && DaysBeforeMonth(y, doy / 31) <= doy
  {
    var m := doy / 31;
    assert 31 * m <= doy;
    assert DaysBeforeMonth(y, m) <= 31 * m;
  }

  /** The calendar date of a day number (what `getFullYear`, `getMonth` and
      `getDate` read off a `Date`). */
  function ToCivil(n: int): (c: Civil)
    ensures ValidCivil(c) && DayNumber(c) == n
  {
    var y := YearOf(n);
    YearStartStep(y);
    var doy := n - YearStart(y);
    MonthEstimate(y, doy);
    var m := MonthUp(y, doy, doy / 31);
    DaysBeforeMonthStep(y, m);
    Civil(y, m, doy - DaysBeforeMonth(y, m) + 1)
  }

  /** Round trip: converting a valid date to its day number and back gives it. */
  lemma ToCivilDayNumber(c: Civil)
    requires ValidCivil(c)
    ensures ToCivil(DayNumber(c)) == c
  {
    DayNumberInjective(ToCivil(DayNumber(c)), c);
  }

  // ----- months -----

  /** A month of a year, `month` in 0..11. */
  datatype YearMonth = YearMonth(year: int, month: int)

  predicate ValidMonth(ym: YearMonth) {
    0 <= ym.month < 12
  }

  /** The month a day falls in. */
  function MonthOfDay(d: int): (ym: YearMonth)
    ensures ValidMonth(ym)
  {
    var c := ToCivil(d);
    YearMonth(c.year, c.month)
  }

  /** The month after `ym`: December is followed by January of the next
      year. */
  function NextMonth(ym: YearMonth): (r: YearMonth)
    requires ValidMonth(ym)
    ensures ValidMonth(r)
  {
    if ym.month == 11 then YearMonth(ym.year + 1, 0) else YearMonth(ym.year, ym.month + 1)
  }

  /** The `i`-th month after `ym`. */
  function MonthsAfter(ym: YearMonth, i: nat): (r: YearMonth)
    requires ValidMonth(ym)
    ensures ValidMonth(r)
  {
    if i == 0 then ym else NextMonth(MonthsAfter(ym, i - 1))
  }

  function MonthStart(ym: YearMonth): int
    requires ValidMonth(ym)
  {
    DayNumber(Civil(ym.year, ym.month, 1))
  }

  function MonthEnd(ym: YearMonth): (d: int)
    requires ValidMonth(ym)
    ensures MonthStart(ym) + 27 <= d
  {
    DayNumber(Civil(ym.year, ym.month, DaysInMonth(ym.year, ym.month)))
  }

  /** The next month starts the day after `ym` ends, December included. */
  lemma MonthEndNext(ym: YearMonth)
    requires ValidMonth(ym)
    ensures MonthEnd(ym) + 1 == MonthStart(NextMonth(ym))
  {
    DaysBeforeMonthStep(ym.year, ym.month);
    if ym.month == 11 {
      YearStartStep(ym.year);
    }
  }

  /** Later months lie wholly after earlier ones. */
  lemma {:induction false} MonthsAfterLater(ym: YearMonth, i: nat, j: nat)
    requires ValidMonth(ym) && i < j
    ensures MonthEnd(MonthsAfter(ym, i)) < MonthStart(MonthsAfter(ym, j))
    decreases j - i
  {
    MonthEndNext(MonthsAfter(ym, j - 1));
    if i < j - 1 {
      MonthsAfterLater(ym, i, j - 1);
    }
  }

  /** Every day between the start and the end of month `ym` falls in `ym`. */
  lemma ToCivilInMonth(ym: YearMonth, d: int)
    requires ValidMonth(ym) && MonthStart(ym) <= d <= MonthEnd(ym)
    ensures MonthOfDay(d) == ym
    ensures ToCivil(d) == Civil(ym.year, ym.month, d - MonthStart(ym) + 1)
  {
    var c := Civil(ym.year, ym.month, d - MonthStart(ym) + 1);
    assert ValidCivil(c) && DayNumber(c) == d;
    ToCivilDayNumber(c);
  }

  /** A day lies between the start and the end of its own month. */
  lemma InOwnMonth(d: int)
    ensures MonthStart(MonthOfDay(d)) <= d <= MonthEnd(MonthOfDay(d))
  {
  }

  // ----- weekday searches -----

  /** The first day on or after `today` that falls on weekday `dow`. */
  function FirstOnOrAfter(today: int, dow: int): (d: int)
    requires 0 <= dow < 7
    ensures today <= d < today + 7 && Weekday(d) == dow
    ensures forall e :: today <= e < d ==> Weekday(e) != dow
  {
    today + (dow - Weekday(today)) % 7
  }

  /** The next `count` days on weekday `dow`, counting `today` itself. */
  function NextWeekdays(today: int, dow: int, count: nat): seq<int>
    requires 0 <= dow < 7
  {
    seq(count, i requires 0 <= i < count => FirstOnOrAfter(today, dow) + 7 * i)
  }

  lemma NextWeekdaysProperties(today: int, dow: int, count: nat)
    requires 0 <= dow < 7
    ensures var ds := NextWeekdays(today, dow, count);
      && |ds| == count
      && (forall i :: 0 <= i < count ==> today <= ds[i] && Weekday(ds[i]) == dow)
      && (forall i, j :: 0 <= i < j < count ==> ds[i] < ds[j])
      && (forall i :: 0 < i < count ==> ds[i] == ds[i - 1] + 7)
      && (count > 0 && Weekday(today) == dow ==> ds[0] == today)
      && (forall d :: count > 0 && today <= d <= ds[count - 1] && Weekday(d) == dow ==> d in ds)
  {
    var ds := NextWeekdays(today, dow, count);
    var first := FirstOnOrAfter(today, dow);
    forall i | 0 <= i < count
      ensures today <= ds[i] && Weekday(ds[i]) == dow
    {
      assert ds[i] == first + 7 * i;
      WeekdayPlusWeeks(first, i);
    }
    forall d | count > 0 && today <= d <= ds[count - 1] && Weekday(d) == dow
      ensures d in ds
    {
      var k := SameWeekdayApart(d, first);
      assert ds[count - 1] == first + 7 * (count - 1);
      assert 0 <= k < count;
      assert ds[k] == d;
    }
  }

  /** Whole weeks later is the same weekday. */
  lemma WeekdayPlusWeeks(d: int, k: int)
    ensures Weekday(d + 7 * k) == Weekday(d)
  {
    var q := (d + 4) / 7;
    assert d + 4 == 7 * q + Weekday(d);
    assert d + 7 * k + 4 == 7 * (q + k) + Weekday(d);
  }

  /** Two days on the same weekday are a whole number of weeks apart. */
  lemma SameWeekdayApart(d: int, e: int) returns (k: int)
    requires Weekday(d) == Weekday(e)
    ensures d == e + 7 * k
  {
    var a, b := (d + 4) / 7, (e + 4) / 7;
    assert d + 4 == 7 * a + Weekday(d);
    assert e + 4 == 7 * b + Weekday(e);
    k := a - b;
  }

  /** Two days less than a week apart on the same weekday are the same day. */
  lemma SameWeekdayWithinWeek(d: int, t: int)
    requires t - 7 < d <= t && Weekday(d) == Weekday(t)
    ensures d == t
  {
    var k := (t + 4) / 7 - (d + 4) / 7;
    assert t - d == 7 * k;
  }

  /** The last day on or before `last` that falls on weekday `dow`. */
  function LastOnOrBefore(last: int, dow: int): (d: int)
    requires 0 <= dow < 7
    ensures last - 7 < d <= last && Weekday(d) == dow
  {
    last - (Weekday(last) - dow) % 7
  }

  /** No day after `LastOnOrBefore(last, dow)`, up to `last`, is on `dow`. */
  lemma LastOnOrBeforeIsLatest(last: int, dow: int)
    requires 0 <= dow < 7
    ensures forall e :: LastOnOrBefore(last, dow) < e <= last ==> Weekday(e) != dow
  {
    var w := Weekday(last);
    var q := (last + 4) / 7;
    assert last + 4 == 7 * q + w;
    assert (w - dow) % 7 == if w >= dow then w - dow else w - dow + 7;
    forall e | LastOnOrBefore(last, dow) < e <= last
      ensures Weekday(e) != dow
    {
      var v := w - (last - e);
      assert e + 4 == 7 * q + v;
      if v >= 0 {
        assert Weekday(e) == v;
      } else {
        assert Weekday(e) == v + 7;
      }
    }
  }

  /** The last day of month `y`/`m` that falls on weekday `dow`. */
  function LastWeekdayOfMonth(y: int, m: int, dow: int): int
    requires 0 <= m < 12 && 0 <= dow < 7
  {
    LastOnOrBefore(DayNumber(Civil(y, m, DaysInMonth(y, m))), dow)
  }

  /** `LastWeekdayOfMonth` is a day of that month, on weekday `dow`, at most
      six days before its end, and no later day of the month is on `dow`. */
  lemma LastWeekdayOfMonthProperties(y: int, m: int, dow: int)
    requires 0 <= m < 12 && 0 <= dow < 7
    ensures var d := LastWeekdayOfMonth(y, m, dow);
      var last := DayNumber(Civil(y, m, DaysInMonth(y, m)));
      && ToCivil(d).year == y && ToCivil(d).month == m
      && Weekday(d) == dow
      && last - 6 <= d <= last
      && (forall e :: d < e <= last ==> Weekday(e) != dow)
  {
    var d := LastWeekdayOfMonth(y, m, dow);
    var last := DayNumber(Civil(y, m, DaysInMonth(y, m)));
    LastOnOrBeforeIsLatest(last, dow);
    var c := Civil(y, m, d - last + DaysInMonth(y, m));
    assert ValidCivil(c) && DayNumber(c) == d;
    ToCivilDayNumber(c);
  }

  function LastWeekdayOf(ym: YearMonth, dow: int): (d: int)
    requires ValidMonth(ym) && 0 <= dow < 7
    ensures MonthStart(ym) <= d <= MonthEnd(ym)
  {
    LastWeekdayOfMonth(ym.year, ym.month, dow)
  }

  /** The last-`dow` day of month `ym` falls in `ym`, on `dow`, and is that
      month's last-`dow` day when read back as a calendar date. */
  lemma LastWeekdayOfFacts(ym: YearMonth, dow: int)
    requires ValidMonth(ym) && 0 <= dow < 7
    ensures var d := LastWeekdayOf(ym, dow);
      && MonthOfDay(d) == ym
      && Weekday(d) == dow
      && d == LastWeekdayOfMonth(ToCivil(d).year, ToCivil(d).month, dow)
  {
    ToCivilInMonth(ym, LastWeekdayOf(ym, dow));
  }

  /** The month the monthly expiries start from: the month of `today`, or
      the next one when this month's last-`dow` day has already passed. */
  function FirstExpiryMonth(today: int, dow: int): (ym: YearMonth)
    requires 0 <= dow < 7
    ensures ValidMonth(ym)
    ensures ym == MonthOfDay(today) || ym == NextMonth(MonthOfDay(today))
    ensures ym == MonthOfDay(today) <==> LastWeekdayOf(MonthOfDay(today), dow) >= today
  {
    var m0 := MonthOfDay(today);
    if LastWeekdayOf(m0, dow) >= today then m0 else NextMonth(m0)
  }

  /** The last-`dow` days of successive months from the month of `today`,
      leaving out the current month's when it is already past. */
  function MonthlyExpiries(today: int, dow: int, count: nat): (ds: seq<int>)
    requires 0 <= dow < 7
    ensures |ds| == count
  {
    Tabulate(count, (i: nat) => ExpiryAt(today, dow, i))
  }

  /** Element `i` of the expiries is the `i`-th expiry, however many are
      asked for. */
  lemma MonthlyExpiriesAt(today: int, dow: int, count: nat, i: nat)
    requires 0 <= dow < 7 && i < count
    ensures MonthlyExpiries(today, dow, count)[i] == ExpiryAt(today, dow, i)
  {
    TabulateAt(count, (j: nat) => ExpiryAt(today, dow, j), i);
  }

  /** One more expiry appends the next one. */
  lemma MonthlyExpiriesSnoc(today: int, dow: int, k: nat)
    requires 0 <= dow < 7
    ensures MonthlyExpiries(today, dow, k + 1) == MonthlyExpiries(today, dow, k) + [ExpiryAt(today, dow, k)]
  {
  }

  /** The `i`-th monthly expiry (from 0). */
  function ExpiryAt(today: int, dow: int, i: nat): int
    requires 0 <= dow < 7
  {
    LastWeekdayOf(MonthsAfter(FirstExpiryMonth(today, dow), i), dow)
  }

  /** Every month from the first expiry month on has its last-`dow` day on
      or after `today`. */
  lemma ExpiryMonthNotPast(today: int, dow: int, i: nat)
    requires 0 <= dow < 7
    ensures today <= LastWeekdayOf(MonthsAfter(FirstExpiryMonth(today, dow), i), dow)
  {
    var m0 := MonthOfDay(today);
    var first := FirstExpiryMonth(today, dow);
    if first == m0 && i > 0 {
      MonthsAfterLater(m0, 0, i);
    } else if first != m0 {
      assert first == MonthsAfter(m0, 1);
      assert MonthsAfter(first, i) == MonthsAfter(m0, i + 1) by {
        MonthsAfterShift(m0, i);
      }
      MonthsAfterLater(m0, 0, i + 1);
    }
  }

  /** Counting from the next month is counting one month further. */
  lemma {:induction false} MonthsAfterShift(ym: YearMonth, i: nat)
    requires ValidMonth(ym)
    ensures MonthsAfter(NextMonth(ym), i) == MonthsAfter(ym, i + 1)
  {
    if i > 0 {
      MonthsAfterShift(ym, i - 1);
    }
  }

  /** Each monthly expiry is on or after `today`, on weekday `dow`, and the
      last `dow` of its own month. */
  lemma MonthlyExpiriesDays(today: int, dow: int, count: nat)
    requires 0 <= dow < 7
    ensures var ds := MonthlyExpiries(today, dow, count);
      forall i :: 0 <= i < count ==>
        today <= ds[i] && Weekday(ds[i]) == dow
        && ds[i] == LastWeekdayOfMonth(ToCivil(ds[i]).year, ToCivil(ds[i]).month, dow)
  {
    var ds := MonthlyExpiries(today, dow, count);
    forall i | 0 <= i < count
      ensures today <= ds[i] && Weekday(ds[i]) == dow
      ensures ds[i] == LastWeekdayOfMonth(ToCivil(ds[i]).year, ToCivil(ds[i]).month, dow)
    {
      MonthlyExpiriesAt(today, dow, count, i);
      ExpiryAtFacts(today, dow, i);
    }
  }

  /** The monthly expiries are strictly ascending. */
  lemma MonthlyExpiriesAscending(today: int, dow: int, count: nat)
    requires 0 <= dow < 7
    ensures var ds := MonthlyExpiries(today, dow, count);
      forall i, j :: 0 <= i < j < count ==> ds[i] < ds[j]
  {
    var ds := MonthlyExpiries(today, dow, count);
    forall i, j | 0 <= i < j < count
      ensures ds[i] < ds[j]
    {
      MonthlyExpiriesAt(today, dow, count, i);
      MonthlyExpiriesAt(today, dow, count, j);
      ExpiryAtOrder(today, dow, i, j);
    }
  }

  /** The monthly expiries fall in consecutive months, December followed by
      January of the next year. */
  lemma MonthlyExpiriesConsecutive(today: int, dow: int, count: nat)
    requires 0 <= dow < 7
    ensures var ds := MonthlyExpiries(today, dow, count);
      forall i :: 0 < i < count ==> MonthOfDay(ds[i]) == NextMonth(MonthOfDay(ds[i - 1]))
  {
    var ds := MonthlyExpiries(today, dow, count);
    forall i | 0 < i < count
      ensures MonthOfDay(ds[i]) == NextMonth(MonthOfDay(ds[i - 1]))
    {
      MonthlyExpiriesNextMonth(today, dow, count, i);
    }
  }

  /** Expiry `i` is in the month after expiry `i - 1`'s. */
  lemma MonthlyExpiriesNextMonth(today: int, dow: int, count: nat, i: nat)
    requires 0 <= dow < 7 && 0 < i < count
    ensures var ds := MonthlyExpiries(today, dow, count);
      MonthOfDay(ds[i]) == NextMonth(MonthOfDay(ds[i - 1]))
  {
    var ds := MonthlyExpiries(today, dow, count);
    MonthlyExpiriesAt(today, dow, count, i);
    MonthlyExpiriesAt(today, dow, count, i - 1);
    ExpiryAtNextMonth(today, dow, i - 1, ds[i - 1], ds[i]);
  }

  /** The first monthly expiry is in the month of `today` exactly when that
      month's last `dow` has not passed, and otherwise in the next month. */
  lemma MonthlyExpiriesStart(today: int, dow: int, count: nat)
    requires 0 <= dow < 7 && count > 0
    ensures var ds := MonthlyExpiries(today, dow, count);
      && (MonthOfDay(ds[0]) == MonthOfDay(today) <==> LastWeekdayOf(MonthOfDay(today), dow) >= today)
      && (MonthOfDay(ds[0]) == MonthOfDay(today) || MonthOfDay(ds[0]) == NextMonth(MonthOfDay(today)))
  {
    MonthlyExpiriesAt(today, dow, count, 0);
    ExpiryAtFacts(today, dow, 0);
  }

  /** The `i`-th expiry is in the `i`-th month after the first expiry
      month, not before `today`, and that month's last `dow`. */
  lemma ExpiryAtFacts(today: int, dow: int, i: nat)
    requires 0 <= dow < 7
    ensures var d := ExpiryAt(today, dow, i);
      && MonthOfDay(d) == MonthsAfter(FirstExpiryMonth(today, dow), i)
      && today <= d && Weekday(d) == dow
      && d == LastWeekdayOfMonth(ToCivil(d).year, ToCivil(d).month, dow)
  {
    LastWeekdayOfFacts(MonthsAfter(FirstExpiryMonth(today, dow), i), dow);
    ExpiryMonthNotPast(today, dow, i);
  }

  /** Successive expiries are in successive months. */
  lemma ExpiryAtNextMonth(today: int, dow: int, i: nat, a: int, b: int)
    requires 0 <= dow < 7
    requires a == ExpiryAt(today, dow, i) && b == ExpiryAt(today, dow, i + 1)
    ensures MonthOfDay(b) == NextMonth(MonthOfDay(a))
  {
    var first := FirstExpiryMonth(today, dow);
    var m := MonthsAfter(first, i);
    assert MonthsAfter(first, i + 1) == NextMonth(m);
    LastWeekdayOfFacts(m, dow);
    LastWeekdayOfFacts(NextMonth(m), dow);
  }

  /** Later expiries are later days. */
  lemma ExpiryAtOrder(today: int, dow: int, i: nat, j: nat)
    requires 0 <= dow < 7 && i < j
    ensures ExpiryAt(today, dow, i) < ExpiryAt(today, dow, j)
  {
    MonthsAfterLater(FirstExpiryMonth(today, dow), i, j);
  }

}
