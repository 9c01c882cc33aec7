/** The proleptic Gregorian calendar of section 21.4.1 of ECMA-262: day numbers counted from 1 January 1970. */
module Calendar {
  predicate Leap(y: int) { (y % 4 == 0 && y % 100 != 0) || y % 400 == 0 }

  function DaysInYear(y: int): int { if Leap(y) then 366 else 365 }

  /** The number of the first day of year `y`. */
  function DayFromYear(y: int): int { 365 * (y - 1970) + (y - 1969) / 4 - (y - 1901) / 100 + (y - 1601) / 400 }

  lemma FourthYears(y: int)
    ensures (y + 1 - 1969) / 4 == (y - 1969) / 4 + (if y % 4 == 0 then 1 else 0)
  {
  }

  lemma HundredthYears(y: int)
    ensures (y + 1 - 1901) / 100 == (y - 1901) / 100 + (if y % 100 == 0 then 1 else 0)
  {
  }

  lemma FourHundredthYears(y: int)
    ensures (y + 1 - 1601) / 400 == (y - 1601) / 400 + (if y % 400 == 0 then 1 else 0)
  {
  }

  lemma Divisibility(y: int)
    ensures (y % 100 == 0 ==> y % 4 == 0) && (y % 400 == 0 ==> y % 100 == 0)
  {
  }

  /** Consecutive years are a year apart. */
  lemma YearLength(y: int)
    ensures DayFromYear(y + 1) == DayFromYear(y) + DaysInYear(y)
  {
    FourthYears(y);
    HundredthYears(y);
    FourHundredthYears(y);
    Divisibility(y);
  }

  lemma YearStep(y: int)
    ensures DayFromYear(y) + 365 <= DayFromYear(y + 1) <= DayFromYear(y) + 366
  {
    YearLength(y);
  }

  lemma {:induction false} YearsIncrease(y: int, z: int)
    requires y <= z
    ensures DayFromYear(z) >= DayFromYear(y) + 365 * (z - y)
    decreases z - y
  {
    if y < z {
      YearsIncrease(y, z - 1);
      YearStep(z - 1);
    }
  }

  /** The year of day `n`, searched from a year that starts no later. */
  function YearFrom(n: int, y: int): (r: int)
    requires DayFromYear(y) <= n
    ensures DayFromYear(r) <= n < DayFromYear(r + 1)
    decreases n - DayFromYear(y)
  {
    YearStep(y);
    if n < DayFromYear(y + 1) then y else YearFrom(n, y + 1)
  }

  /** A year that starts no later than day `n`. */
  function YearBefore(n: int): (y: int)
    ensures DayFromYear(y) <= n
  {
    if n >= 0 then 1970
    else
      YearsIncrease(1970 + n, 1970);
      1970 + n
  }

  /** `YearFromTime` */
  function YearOf(n: int): (y: int)
    ensures DayFromYear(y) <= n < DayFromYear(y + 1)
  {
    YearFrom(n, YearBefore(n))
  }

  lemma YearMonotone(n: int, k: int)
    requires n <= k
    ensures YearOf(n) <= YearOf(k)
  {
    if YearOf(k) < YearOf(n) { YearsIncrease(YearOf(k) + 1, YearOf(n)); }
  }

  /** The day of the year on which month `m`, counted from 0, begins. */
  function MonthStart(m: int, leap: bool): int
    requires 0 <= m <= 12
  {
    var l := if leap then 1 else 0;
    match m
    case 0 => 0 case 1 => 31 case 2 => 59 + l case 3 => 90 + l case 4 => 120 + l case 5 => 151 + l case 6 => 181 + l
    case 7 => 212 + l case 8 => 243 + l case 9 => 273 + l case 10 => 304 + l case 11 => 334 + l case _ => 365 + l
  }

  lemma MonthStep(m: int, leap: bool)
    requires 0 <= m < 12
    ensures MonthStart(m, leap) + 28 <= MonthStart(m + 1, leap) <= MonthStart(m, leap) + 31
  {
  }

  lemma {:induction false} MonthsIncrease(m: int, k: int, leap: bool)
    requires 0 <= m <= k <= 12
    ensures MonthStart(k, leap) >= MonthStart(m, leap) + 28 * (k - m)
    decreases k - m
  {
    if m < k {
      MonthsIncrease(m, k - 1, leap);
      MonthStep(k - 1, leap);
    }
  }

  /** The month of day `d` of a year, searched from month `m`. */
  function MonthFrom(d: int, leap: bool, m: int): (r: int)
    requires 0 <= m < 12 && MonthStart(m, leap) <= d < MonthStart(12, leap)
    ensures m <= r < 12 && MonthStart(r, leap) <= d < MonthStart(r + 1, leap)
    decreases 12 - m
  {
    if d < MonthStart(m + 1, leap) then m else MonthFrom(d, leap, m + 1)
  }

  lemma MonthFromMonotone(d: int, e: int, leap: bool)
    requires 0 <= d <= e < MonthStart(12, leap)
    ensures MonthFrom(d, leap, 0) <= MonthFrom(e, leap, 0)
  {
    var m, k := MonthFrom(d, leap, 0), MonthFrom(e, leap, 0);
    if k < m { MonthsIncrease(k + 1, m, leap); }
  }

  /** Months are counted from 0. */
  datatype Month = Month(year: int, month: int)

  datatype Civil = Civil(year: int, month: int, day: int)

  predicate IsMonth(m: Month) { 0 <= m.month < 12 }

  function Index(m: Month): int { 12 * m.year + m.month }

  function FirstDay(m: Month): int
    requires IsMonth(m)
  {
    DayFromYear(m.year) + MonthStart(m.month, Leap(m.year))
  }

  function NextMonth(m: Month): Month { if m.month == 11 then Month(m.year + 1, 0) else m.(month := m.month + 1) }

  lemma MonthLength(m: Month)
    requires IsMonth(m)
    ensures IsMonth(NextMonth(m)) && Index(NextMonth(m)) == Index(m) + 1
    ensures FirstDay(m) + 28 <= FirstDay(NextMonth(m)) <= FirstDay(m) + 31
  {
    YearLength(m.year);
    MonthStep(m.month, Leap(m.year));
  }

  lemma YearBound(n: int)
    ensures 0 <= n - DayFromYear(YearOf(n)) < MonthStart(12, Leap(YearOf(n)))
  {
    YearLength(YearOf(n));
    LastMonth(Leap(YearOf(n)));
  }

  lemma LastMonth(leap: bool)
    ensures MonthStart(12, leap) == if leap then 366 else 365
  {
  }

  /** The month of day `n`. */
  function MonthOf(n: int): (m: Month)
    ensures IsMonth(m)
    ensures MonthStart(m.month, Leap(m.year)) <= n - DayFromYear(m.year) < MonthStart(m.month + 1, Leap(m.year))
  {
    YearBound(n);
    Month(YearOf(n), MonthFrom(n - DayFromYear(YearOf(n)), Leap(YearOf(n)), 0))
  }

  /** Later days fall in later months, or the same. */
  lemma MonthMonotone(n: int, k: int)
    requires n <= k
    ensures Index(MonthOf(n)) <= Index(MonthOf(k))
  {
    YearMonotone(n, k);
    MonthParts(n);
    MonthParts(k);
    if YearOf(n) == YearOf(k) { MonthMonotoneWithin(n, k, YearOf(n)); }
  }

  lemma MonthParts(n: int)
    ensures IsMonth(MonthOf(n)) && MonthOf(n).year == YearOf(n)
  {
  }

  lemma MonthMonotoneWithin(n: int, k: int, y: int)
    requires n <= k && YearOf(n) == y && YearOf(k) == y
    ensures MonthOf(n).month <= MonthOf(k).month
  {
    var d := MonthInYear(n);
    var e := MonthInYear(k);
    MonthFromMonotone(d, e, Leap(y));
  }

  lemma MonthInYear(n: int) returns (d: int)
    ensures d == n - DayFromYear(YearOf(n)) && 0 <= d < MonthStart(12, Leap(YearOf(n)))
    ensures MonthOf(n).month == MonthFrom(d, Leap(YearOf(n)), 0)
  {
    YearBound(n);
    d := n - DayFromYear(YearOf(n));
  }

  /** Months in order of their first days are months in order. */
  lemma FirstDayOrder(a: Month, b: Month)
    requires IsMonth(a) && IsMonth(b)
    ensures FirstDay(a) <= FirstDay(b) <==> Index(a) <= Index(b)
  {
    if Index(a) <= Index(b) { FirstDayMonotone(a, b); } else { FirstDayStrict(b, a); }
  }

  lemma FirstDayMonotone(a: Month, b: Month)
    requires IsMonth(a) && IsMonth(b) && Index(a) <= Index(b)
    ensures FirstDay(a) <= FirstDay(b)
  {
    if a.year == b.year {
      MonthsIncrease(a.month, b.month, Leap(a.year));
    } else {
      YearLength(a.year);
      YearsIncrease(a.year + 1, b.year);
      MonthsIncrease(a.month, 12, Leap(a.year));
      MonthsIncrease(0, b.month, Leap(b.year));
    }
  }

  lemma FirstDayStrict(a: Month, b: Month)
    requires IsMonth(a) && IsMonth(b) && Index(a) < Index(b)
    ensures FirstDay(a) < FirstDay(b)
  {
    MonthLength(a);
    FirstDayMonotone(NextMonth(a), b);
  }

  /** Year, month and day of the month of day `n`, as the UTC fields of a date give them, the month counted from 1. */
  function CivilOf(n: int): Civil {
    var m := MonthOf(n);
    Civil(m.year, m.month + 1, n - FirstDay(m) + 1)
  }

  predicate IsCivil(c: Civil) { 1 <= c.month <= 12 }

  /** The day number in `Date.UTC(year, month - 1, day)`. */
  function DayNumber(c: Civil): int
    requires IsCivil(c)
  {
    FirstDay(Month(c.year, c.month - 1)) + c.day - 1
  }

  /** The fields of a date. */
  predicate IsDate(c: Civil) {
    IsCivil(c) && 1 <= c.day <= FirstDay(NextMonth(Month(c.year, c.month - 1))) - FirstDay(Month(c.year, c.month - 1))
  }

  lemma NextFirst(m: Month)
    requires IsMonth(m)
    ensures FirstDay(NextMonth(m)) == DayFromYear(m.year) + MonthStart(m.month + 1, Leap(m.year))
  {
    if m.month == 11 {
      YearLength(m.year);
      LastMonth(Leap(m.year));
    }
  }

  /** Every day lies inside its month. */
  lemma InsideMonth(n: int)
    ensures FirstDay(MonthOf(n)) <= n < FirstDay(NextMonth(MonthOf(n)))
  {
    NextFirst(MonthOf(n));
  }

  /** And no other month has it. */
  lemma OnlyMonth(n: int, m: Month)
    requires IsMonth(m) && FirstDay(m) <= n < FirstDay(NextMonth(m))
    ensures MonthOf(n) == m
  {
    var k := MonthOf(n);
    InsideMonth(n);
    NextIndex(m);
    NextIndex(k);
    FirstDayOrder(NextMonth(m), k);
    FirstDayOrder(NextMonth(k), m);
    SameIndex(k, m);
  }

  lemma NextIndex(m: Month)
    requires IsMonth(m)
    ensures IsMonth(NextMonth(m)) && Index(NextMonth(m)) == Index(m) + 1
  {
  }

  lemma SameIndex(a: Month, b: Month)
    requires IsMonth(a) && IsMonth(b) && Index(a) == Index(b)
    ensures a == b
  {
  }

  /** Day numbers give dates. */
  lemma CivilIsDate(n: int)
    ensures IsDate(CivilOf(n)) && DayNumber(CivilOf(n)) == n
  {
    var m := MonthOf(n);
    InsideMonth(n);
    assert CivilOf(n) == Civil(m.year, m.month + 1, n - FirstDay(m) + 1);
    DateIn(m, n - FirstDay(m) + 1);
  }

  lemma DateIn(m: Month, day: int)
    requires IsMonth(m) && 1 <= day <= FirstDay(NextMonth(m)) - FirstDay(m)
    ensures IsDate(Civil(m.year, m.month + 1, day))
      && DayNumber(Civil(m.year, m.month + 1, day)) == FirstDay(m) + day - 1
  {
    assert Month(m.year, m.month + 1 - 1) == m;
  }

  /** Dates survive the way to a day number and back. */
  lemma CivilRoundTrip(c: Civil)
    requires IsDate(c)
    ensures CivilOf(DayNumber(c)) == c
  {
    OnlyMonth(DayNumber(c), Month(c.year, c.month - 1));
  }

  /** So different days have different fields. */
  lemma CivilInjective(n: int, k: int)
    requires CivilOf(n) == CivilOf(k)
    ensures n == k
  {
    CivilIsDate(n);
    CivilIsDate(k);
  }

  // ---------------------------------------------------------------- the calendar by its rules

  /** Thirty days have April, June, September and November. */
  function LastDay(year: int, month: int): int {
    if month == 4 || month == 6 || month == 9 || month == 11 then 30
    else if month != 2 then 31
    else if year % 400 == 0 || (year % 4 == 0 && year % 100 != 0) then 29 else 28
  }

  /** The date after a date. */
  function Tomorrow(c: Civil): Civil {
    if c.day < LastDay(c.year, c.month) then c.(day := c.day + 1)
    else if c.month < 12 then Civil(c.year, c.month + 1, 1)
    else Civil(c.year + 1, 1, 1)
  }

  lemma MonthLengthIs(m: Month)
    requires IsMonth(m)
    ensures FirstDay(NextMonth(m)) - FirstDay(m) == LastDay(m.year, m.month + 1)
  {
    NextFirst(m);
  }

  lemma CivilIn(n: int, m: Month)
    requires IsMonth(m) && FirstDay(m) <= n < FirstDay(NextMonth(m))
    ensures CivilOf(n) == Civil(m.year, m.month + 1, n - FirstDay(m) + 1)
  {
    OnlyMonth(n, m);
  }

  /** 1 January 1970 has number 0, and the next number belongs to the next date: no other numbering does that. */
  lemma DaysFollow(n: int)
    ensures DayNumber(Civil(1970, 1, 1)) == 0
    ensures CivilOf(n + 1) == Tomorrow(CivilOf(n))
  {
    var f, g := RunsAround(n);
    CivilFollows(n, n + 1, MonthOf(n), f, g);
  }

  lemma RunsAround(n: int) returns (f: int, g: int)
    ensures Runs(MonthOf(n), f, g) && f <= n < g
  {
    InsideMonth(n);
    f, g := FirstDay(MonthOf(n)), FirstDay(NextMonth(MonthOf(n)));
  }

  /** Where a month begins and where the next one does. */
  predicate Runs(m: Month, f: int, g: int) {
    true <==>
    IsMonth(m) && FirstDay(m) == f && FirstDay(NextMonth(m)) == g
  }

  lemma CivilFollows(n: int, k: int, m: Month, f: int, g: int)
    requires Runs(m, f, g) && f <= n < g && k == n + 1
    ensures CivilOf(k) == Tomorrow(CivilOf(n))
  {
    CivilRuns(n, m, f, g);
    LengthRuns(m, f, g);
    if k < g { CivilRuns(k, m, f, g); } else { TurnRuns(k, m, f); }
    TomorrowIs(m, n, f, g, CivilOf(n), CivilOf(k));
  }

  lemma CivilRuns(n: int, m: Month, f: int, g: int)
    requires Runs(m, f, g) && f <= n < g
    ensures CivilOf(n) == Civil(m.year, m.month + 1, n - f + 1)
  {
    CivilIn(n, m);
  }

  lemma LengthRuns(m: Month, f: int, g: int)
    requires Runs(m, f, g)
    ensures IsMonth(m) && g - f == LastDay(m.year, m.month + 1)
  {
    MonthLengthIs(m);
  }

  lemma TurnRuns(n: int, m: Month, f: int)
    requires Runs(m, f, n)
    ensures CivilOf(n) == Civil(NextMonth(m).year, NextMonth(m).month + 1, 1)
  {
    NextIndex(m);
    FirstIn(n, NextMonth(m));
  }

  lemma TomorrowIs(m: Month, n: int, f: int, g: int, today: Civil, next: Civil)
    requires IsMonth(m) && f <= n < g && g - f == LastDay(m.year, m.month + 1)
    requires today == Civil(m.year, m.month + 1, n - f + 1)
    requires next == if n + 1 < g then Civil(m.year, m.month + 1, n + 1 - f + 1)
      else Civil(NextMonth(m).year, NextMonth(m).month + 1, 1)
    ensures next == Tomorrow(today)
  {
  }

  lemma FirstIn(n: int, m: Month)
    requires IsMonth(m) && FirstDay(m) == n
    ensures CivilOf(n) == Civil(m.year, m.month + 1, 1)
  {
    MonthLength(m);
    CivilIn(n, m);
  }
}
