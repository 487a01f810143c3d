/** The proleptic Gregorian calendar as day numbers, day 0 being 1 January 1970:
    dates, their successors and the month arithmetic that bucket bounds use. */
module Calendar {

  datatype Date = Date(year: int, month: int, day: int) {
    predicate Valid() {
      1 <= month <= 12 && 1 <= day <= DaysInMonth(year, month)
    }
  }

  predicate Leap(y: int) {
    y % 4 == 0 && (y % 100 != 0 || y % 400 == 0)
  }

  function DaysInMonth(y: int, m: int): int
    requires 1 <= m <= 12
  {
    if m == 2 then (if Leap(y) then 29 else 28)
    else if m in {4, 6, 9, 11} then 30
    else 31
  }

  /** Days from 1 January of year 1 to 1 January of `y`. */
  function DaysBeforeYear(y: int): int {
    365 * (y - 1) + (y - 1) / 4 - (y - 1) / 100 + (y - 1) / 400
  }

  function DaysBeforeMonth(y: int, m: int): int
    requires 1 <= m <= 12
  {
    if m == 1 then 0 else DaysBeforeMonth(y, m - 1) + DaysInMonth(y, m - 1)
  }

  /** The day number of a date. */
  function Number(d: Date): int
    requires d.Valid()
  {
    DaysBeforeYear(d.year) - DaysBeforeYear(1970) + DaysBeforeMonth(d.year, d.month) + d.day - 1
  }

  /** The first day of a month counted from January of year 0. */
  function MonthStart(index: int): Date
    ensures MonthStart(index).Valid()
  {
    Date(index / 12, index % 12 + 1, 1)
  }

  function MonthIndex(d: Date): int {
    d.year * 12 + d.month - 1
  }

  /** `date.with_day(1)`. */
  function FirstOfMonth(d: Date): (r: Date)
    requires d.Valid()
    ensures r.Valid()
  {
    d.(day := 1)
  }

  /** `first + Months::new(1)` for the first of a month. */
  function NextMonth(d: Date): (r: Date)
    requires d.Valid()
    ensures r.Valid()
  {
    if d.month == 12 then Date(d.year + 1, 1, 1) else Date(d.year, d.month + 1, 1)
  }

  /** `date.succ_opt()`. */
  function Succ(d: Date): (r: Date)
    requires d.Valid()
    ensures r.Valid()
  {
    if d.day < DaysInMonth(d.year, d.month) then d.(day := d.day + 1) else NextMonth(d)
  }

  lemma YearLength(y: int)
    ensures DaysBeforeYear(y + 1) - DaysBeforeYear(y) == if Leap(y) then 366 else 365
  {
    StepDiv(y, 4);
    StepDiv(y, 100);
    StepDiv(y, 400);
  }

  lemma StepDiv(y: int, n: int)
    requires n in {4, 100, 400}
    ensures y / n - (y - 1) / n == if y % n == 0 then 1 else 0
  {
  }

  lemma MonthsFillYear(y: int)
    ensures DaysBeforeMonth(y, 12) + DaysInMonth(y, 12) == if Leap(y) then 366 else 365
  {
    assert DaysBeforeMonth(y, 2) == 31;
    assert DaysBeforeMonth(y, 4) == DaysBeforeMonth(y, 3) + 31 == 62 + DaysInMonth(y, 2);
    assert DaysBeforeMonth(y, 6) == DaysBeforeMonth(y, 5) + 31 == DaysBeforeMonth(y, 4) + 61;
    assert DaysBeforeMonth(y, 8) == DaysBeforeMonth(y, 7) + 31 == DaysBeforeMonth(y, 6) + 61;
    assert DaysBeforeMonth(y, 10) == DaysBeforeMonth(y, 9) + 30 == DaysBeforeMonth(y, 8) + 61;
    assert DaysBeforeMonth(y, 12) == DaysBeforeMonth(y, 11) + 30 == DaysBeforeMonth(y, 10) + 61;
  }

  /** Day numbers counted another way, with no table of months: years run from
      March, so that the leap day comes last and month lengths follow a rule. */
  function CivilCount(d: Date): int {
    var year := if d.month <= 2 then d.year - 1 else d.year;
    var month := if d.month <= 2 then d.month + 9 else d.month - 3;
    365 * year + year / 4 - year / 100 + year / 400 + (153 * month + 2) / 5 + d.day - 1 - 719_468
  }

  /** The two counts agree on every date. */
  lemma NumberIsCivil(d: Date)
    requires d.Valid()
    ensures Number(d) == CivilCount(d)
  {
    YearLength(d.year);
    MonthsAreCivil(d.year, d.month);
  }

  lemma MonthsAreCivil(y: int, m: int)
    requires 1 <= m <= 12
    ensures DaysBeforeMonth(y, m)
         == if m <= 2 then (153 * (m + 9) + 2) / 5 - 306
            else (153 * (m - 3) + 2) / 5 + 59 + (if Leap(y) then 1 else 0)
  {
    if m > 1 {
      MonthsAreCivil(y, m - 1);
    }
  }

  lemma MonthNumbers(d: Date)
    requires d.Valid()
    ensures Number(NextMonth(d)) == Number(FirstOfMonth(d)) + DaysInMonth(d.year, d.month)
  {
    if d.month == 12 {
      YearLength(d.year);
      MonthsFillYear(d.year);
    }
  }

  /** A month is as long as the calendar says, across December as elsewhere. */
  lemma MonthLength(d: Date)
    requires d.Valid()
    ensures Number(NextMonth(d)) == Number(FirstOfMonth(d)) + DaysInMonth(d.year, d.month)
    ensures CivilCount(NextMonth(d)) == CivilCount(FirstOfMonth(d)) + DaysInMonth(d.year, d.month)
  {
    MonthNumbers(d);
    hide Number, CivilCount;
    NumberIsCivil(NextMonth(d));
    NumberIsCivil(FirstOfMonth(d));
  }

  lemma SuccIsNextDay(d: Date)
    requires d.Valid()
    ensures Number(Succ(d)) == Number(d) + 1
    ensures CivilCount(Succ(d)) == CivilCount(d) + 1
  {
    MonthLength(d);
    NumberIsCivil(d);
    NumberIsCivil(Succ(d));
    hide CivilCount;
  }

  /** The day number a month begins on. */
  function Begins(index: int): int {
    Number(MonthStart(index))
  }

  lemma IndexLength(index: int)
    ensures NextMonth(MonthStart(index)) == MonthStart(index + 1)
    ensures 28 <= Begins(index + 1) - Begins(index) <= 31
  {
    hide Number;
    MonthNumbers(MonthStart(index));
  }

  /** The month holding day `n`, searched for from month `index`. */
  function MonthFrom(n: int, index: int): (r: int)
    ensures Begins(r) <= n < Begins(r + 1)
    decreases if n < Begins(index) then Begins(index) - n
              else if Begins(index + 1) <= n then n - Begins(index + 1) + 1
              else 0
  {
    hide Begins, Number, MonthStart, NextMonth;
    IndexLength(index);
    IndexLength(index - 1);
    IndexLength(index + 1);
    if n < Begins(index) then MonthFrom(n, index - 1)
    else if Begins(index + 1) <= n then MonthFrom(n, index + 1)
    else index
  }

  /** Day `n` as a day of the month `index`. */
  function DayIn(index: int, n: int): Date {
    MonthStart(index).(day := n - Begins(index) + 1)
  }

  lemma DayOfMonth(index: int, n: int)
    requires Begins(index) <= n < Begins(index + 1)
    ensures IsDay(DayIn(index, n), n)
  {
    IndexLength(index);
    MonthNumbers(MonthStart(index));
  }

  predicate IsDay(d: Date, n: int) {
    d.Valid() && Number(d) == n
  }

  /** The date of day `n`. */
  function DateOf(n: int): (d: Date)
    ensures IsDay(d, n)
  {
    hide Begins, DayIn, IsDay;
    var index := MonthFrom(n, 1970 * 12);
    DayOfMonth(index, n);
    DayIn(index, n)
  }

  lemma {:induction false} MonthsIncrease(a: int, b: int)
    requires a < b
    ensures Begins(a + 1) <= Begins(b)
    decreases b - a
  {
    hide Begins, Number, MonthStart;
    if a + 1 < b {
      MonthsIncrease(a, b - 1);
      IndexLength(b - 1);
    }
  }

  /** No two dates share a day number, so `DateOf` inverts `Number`. */
  lemma DateRoundTrip(d: Date)
    requires d.Valid()
    ensures DateOf(Number(d)) == d
  {
    hide Begins, Number, DateOf;
    var n := Number(d);
    var e := DateOf(n);
    DayWithinMonth(d);
    DayWithinMonth(e);
    if MonthIndex(d) < MonthIndex(e) {
      MonthsIncrease(MonthIndex(d), MonthIndex(e));
    } else if MonthIndex(e) < MonthIndex(d) {
      MonthsIncrease(MonthIndex(e), MonthIndex(d));
    }
  }

  lemma DayWithinMonth(d: Date)
    requires d.Valid()
    ensures MonthStart(MonthIndex(d)) == FirstOfMonth(d)
    ensures MonthStart(MonthIndex(d) + 1) == NextMonth(d)
    ensures NextMonth(FirstOfMonth(d)) == NextMonth(d)
    ensures Begins(MonthIndex(d)) == Number(FirstOfMonth(d)) && Begins(MonthIndex(d) + 1) == Number(NextMonth(d))
    ensures Number(d) == Number(FirstOfMonth(d)) + d.day - 1
    ensures Begins(MonthIndex(d)) <= Number(d) < Begins(MonthIndex(d) + 1)
  {
    MonthOfDate(d);
    hide MonthStart, MonthIndex;
    MonthNumbers(d);
  }

  lemma MonthOfDate(d: Date)
    requires d.Valid()
    ensures MonthStart(MonthIndex(d)) == FirstOfMonth(d)
    ensures MonthStart(MonthIndex(d) + 1) == NextMonth(d)
  {
  }

  /** Two days share a month exactly when they lie between the same two month starts. */
  lemma SameMonth(n: int, m: int)
    requires Number(FirstOfMonth(DateOf(n))) <= m < Number(NextMonth(DateOf(n)))
    ensures FirstOfMonth(DateOf(m)) == FirstOfMonth(DateOf(n))
    ensures NextMonth(DateOf(m)) == NextMonth(DateOf(n))
  {
    hide Begins, Number, DateOf;
    var d, e := DateOf(n), DateOf(m);
    DayWithinMonth(d);
    DayWithinMonth(e);
    if MonthIndex(d) < MonthIndex(e) {
      MonthsIncrease(MonthIndex(d), MonthIndex(e));
    } else if MonthIndex(e) < MonthIndex(d) {
      MonthsIncrease(MonthIndex(e), MonthIndex(d));
    }
  }
}
