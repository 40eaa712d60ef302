/**
 * The local-calendar arithmetic of JavaScript's `Date` that the budget code
 * relies on: month names, leap years, month lengths, and the day overflow
 * that `new Date(y, m, d)` and `setDate` perform. A date is identified with
 * its day number (days since 1 January of year 0, proleptic Gregorian), so
 * comparing two `Date` objects is comparing day numbers and times of day.
 */
module Calendar {
  import opened Wrappers

  /** `MONTHS`: the month labels, January first. */
  const MonthNames: seq<string> :=
    ["Jan", "Feb", "Mar", "Apr", "May", "Jun", "Jul", "Aug", "Sep", "Oct", "Nov", "Dec"]

  /** `xs.indexOf(x)`: the first position of `x`, `None` for -1. */
  function IndexOf<T(==)>(xs: seq<T>, x: T): (r: Option<nat>)
    ensures r.Some? ==> r.value < |xs| && xs[r.value] == x
    ensures r.Some? ==> forall j :: 0 <= j < r.value ==> xs[j] != x
    ensures r.None? <==> x !in xs
  {
    if xs == [] then None
    else if xs[0] == x then Some(0)
    else match IndexOf(xs[1..], x)
      case None => None
      case Some(k) => Some(k + 1)
  }

  /** `MONTH_INDEX[name]` (and `MONTH_ORDER[name]`): the month's index, `None` for any other string. */
  function MonthIndex(name: string): (r: Option<nat>)
    ensures r.Some? ==> r.value < 12
  {
    MonthIndexFrom(name, 0)
  }

  /** The first month from `k` on whose label is `name`. */
  function MonthIndexFrom(name: string, k: nat): (r: Option<nat>)
    requires k <= 12
    ensures r.Some? ==> k <= r.value < 12
    decreases 12 - k
  {
    if k == 12 then None
    else if MonthNames[k] == name then Some(k)
    else MonthIndexFrom(name, k + 1)
  }

  /** `MonthIndexFrom` finds `name` exactly when it is one of the labels from `k` on, and then at that label. */
  lemma {:induction false} MonthIndexFromMeaning(name: string, k: nat)
    requires k <= 12
    ensures MonthIndexFrom(name, k).Some? ==> MonthNames[MonthIndexFrom(name, k).value] == name
    ensures MonthIndexFrom(name, k).None? <==> forall j :: k <= j < 12 ==> MonthNames[j] != name
    decreases 12 - k
  {
    if k < 12 {
      MonthIndexFromMeaning(name, k + 1);
    }
  }

  /** `MonthIndex` finds exactly the twelve labels, each at its own position. */
  lemma MonthIndexMeaning(name: string)
    ensures MonthIndex(name).Some? ==> MonthNames[MonthIndex(name).value] == name
    ensures MonthIndex(name).None? <==> name !in MonthNames
  {
    MonthIndexFromMeaning(name, 0);
  }

  /** A month label is a three-letter word: no space, no apostrophe. */
  lemma MonthNameHasNoSeparator(m: nat)
    requires m < 12
    ensures ' ' !in MonthNames[m] && '\'' !in MonthNames[m]
  {
  }

  /** No two months share a label. */
  lemma MonthNamesDistinct(k: nat, m: nat)
    requires k < 12 && m < 12
    ensures MonthNames[k] == MonthNames[m] ==> k == m
  {
  }

  /** Looking a month's own label up gives back that month. */
  lemma MonthIndexOfName(m: nat)
    requires m < 12
    ensures MonthIndex(MonthNames[m]) == Some(m)
  {
    MonthIndexMeaning(MonthNames[m]);
    var k := MonthIndex(MonthNames[m]).value;
    MonthNamesDistinct(k, m);
  }

  predicate IsLeapYear(y: int) {
    y % 4 == 0 && (y % 100 != 0 || y % 400 == 0)
  }

  function DaysInYear(y: int): int {
    if IsLeapYear(y) then 366 else 365
  }

  /** The length of month `m` (0 = January) of year `y`. */
  function DaysInMonth(y: int, m: int): (n: int)
    requires 0 <= m < 12
    ensures 28 <= n <= 31
  {
    if m == 1 then (if IsLeapYear(y) then 29 else 28)
    else if m == 3 || m == 5 || m == 8 || m == 10 then 30
    else 31
  }

  /** Days of year `y` before the first of month `m`; `m == 12` gives the whole year. */
  function DaysBeforeMonth(y: int, m: int): int
    requires 0 <= m <= 12
  {
    var leap := if IsLeapYear(y) && m >= 2 then 1 else 0;
    leap + (
      if m == 0 then 0 else if m == 1 then 31 else if m == 2 then 59
      else if m == 3 then 90 else if m == 4 then 120 else if m == 5 then 151
      else if m == 6 then 181 else if m == 7 then 212 else if m == 8 then 243
      else if m == 9 then 273 else if m == 10 then 304 else if m == 11 then 334
      else 365)
  }

  /** Consecutive months abut, and the twelve months fill the year. */
  lemma MonthStep(y: int, m: int)
    requires 0 <= m < 12
    ensures DaysBeforeMonth(y, m + 1) == DaysBeforeMonth(y, m) + DaysInMonth(y, m)
    ensures DaysBeforeMonth(y, 12) == DaysInYear(y)
    ensures 0 <= DaysBeforeMonth(y, m) && DaysBeforeMonth(y, m) + DaysInMonth(y, m) <= DaysInYear(y)
  {
  }

  /** Days from 1 January of year 0 to 1 January of year `y` (negative for earlier years). */
  function DaysBeforeYear(y: int): int
    decreases if y < 0 then -y else y
  {
    if y == 0 then 0
    else if y > 0 then DaysBeforeYear(y - 1) + DaysInYear(y - 1)
    else DaysBeforeYear(y + 1) - DaysInYear(y)
  }

  /** Consecutive years abut. */
  lemma YearStep(y: int)
    ensures DaysBeforeYear(y + 1) == DaysBeforeYear(y) + DaysInYear(y)
  {
  }

  /** The day number of day `d` of month `m` of year `y`; `d` may lie outside the month. */
  function DayNumber(y: int, m: int, d: int): int
    requires 0 <= m < 12
  {
    DaysBeforeYear(y) + DaysBeforeMonth(y, m) + d - 1
  }

  /** A calendar date as `getFullYear()`, `getMonth()` (0 = January) and `getDate()` report it. */
  datatype Date = Date(year: int, month: int, day: int)

  predicate Valid(dt: Date) {
    0 <= dt.month < 12 && 1 <= dt.day <= DaysInMonth(dt.year, dt.month)
  }

  function Serial(dt: Date): int
    requires 0 <= dt.month < 12
  {
    DayNumber(dt.year, dt.month, dt.day)
  }

  /** A valid date lies within its own year. */
  lemma SerialWithinYear(dt: Date)
    requires Valid(dt)
    ensures DaysBeforeYear(dt.year) <= Serial(dt) < DaysBeforeYear(dt.year + 1)
  {
    MonthStep(dt.year, dt.month);
    YearStep(dt.year);
  }

  /**
   * The date that day `d` of month `m` of year `y` overflows to: a day past
   * the end of the month runs into the next months, a day below 1 into the
   * previous ones. It names the same day.
   */
  function Normalize(y: int, m: int, d: int): (r: Date)
    requires 0 <= m < 12
    ensures Valid(r)
    ensures Serial(r) == DayNumber(y, m, d)
    decreases if d < 1 then 1 - d else 0, if d < 1 then 0 else d
  {
    if d < 1 then
      var py := if m == 0 then y - 1 else y;
      var pm := if m == 0 then 11 else m - 1;
      MonthStep(py, pm);
      YearStep(py);
      Normalize(py, pm, d + DaysInMonth(py, pm))
    else if d > DaysInMonth(y, m) then
      var ny := if m == 11 then y + 1 else y;
      var nm := if m == 11 then 0 else m + 1;
      MonthStep(y, m);
      YearStep(y);
      Normalize(ny, nm, d - DaysInMonth(y, m))
    else
      Date(y, m, d)
  }

  /** `new Date(y, …)` reads a year from 0 to 99 as 1900 to 1999. */
  function FullYear(y: int): int {
    if 0 <= y <= 99 then 1900 + y else y
  }

  /**
   * `new Date(y, m, d)` at local midnight: the month index carries into the
   * year (month -1 is December of the previous year) and the day is
   * normalised as in `Normalize`.
   */
  function MakeDate(y: int, m: int, d: int): (r: Date)
    ensures Valid(r)
    ensures Serial(r) == DayNumber(FullYear(y) + m / 12, m % 12, d)
  {
    Normalize(FullYear(y) + m / 12, m % 12, d)
  }

  /** `dt.setDate(dt.getDate() + k)`: exactly `k` days later (earlier for negative `k`). */
  function AddDays(dt: Date, k: int): (r: Date)
    requires Valid(dt)
    ensures Valid(r)
    ensures Serial(r) == Serial(dt) + k
  {
    Normalize(dt.year, dt.month, dt.day + k)
  }

  /** A valid date is its own normal form. */
  lemma NormalizeValid(dt: Date)
    requires Valid(dt)
    ensures Normalize(dt.year, dt.month, dt.day) == dt
  {
  }

  /** Within the month and for a four-digit year, `new Date(y, m, d)` is that very date. */
  lemma MakeDateInMonth(y: int, m: int, d: int)
    requires y >= 100 && 0 <= m < 12 && 1 <= d <= DaysInMonth(y, m)
    ensures MakeDate(y, m, d) == Date(y, m, d)
  {
    assert FullYear(y) == y && m / 12 == 0 && m % 12 == m;
    NormalizeValid(Date(y, m, d));
  }

  /** Month -1 is December of the previous year. */
  lemma MakeDateMonthBeforeJanuary(y: int, d: int)
    requires y >= 100 && 1 <= d <= 31
    ensures MakeDate(y, -1, d) == Date(y - 1, 11, d)
  {
    assert FullYear(y) == y && -1 / 12 == -1 && -1 % 12 == 11;
    NormalizeValid(Date(y - 1, 11, d));
  }
}
