/**
 * Calendar days, weekday names and the closed-day calendar shared by the
 * newer calculators, with the theory of "N working days later" their loops
 * are proved against.
 *
 * A day is an integer day number counted from 1970-01-01 (day 0, a
 * Thursday); a 'Y-m-d' string is modelled by the day it names.
 */
module Calendar {

  type Day = int

  /** strtolower($date->format('l')) for the seven residues of a day number modulo 7. */
  const WeekdayNames: seq<string> :=
    ["thursday", "friday", "saturday", "sunday", "monday", "tuesday", "wednesday"]

  function WeekdayName(d: Day): string {
    WeekdayNames[d % 7]
  }

  /**
   * Non-working days: lowercase weekday names closed every week, store
   * closure dates, and postage (carrier) holidays.
   */
  datatype ClosedDays = ClosedDays(weekly: set<string>, storeDates: set<Day>, postageDates: set<Day>)

  /** The 'start' and 'end' days a calculator's calculate_delivery_range returns as 'Y-m-d'. */
  datatype DeliveryRange = DeliveryRange(start: Day, end: Day)

  /** The store is closed by its weekly schedule or on a specific date. */
  predicate StoreClosed(cal: ClosedDays, d: Day) {
    WeekdayName(d) in cal.weekly || d in cal.storeDates
  }

  /** The carrier does not collect on this date. */
  predicate PostageHoliday(cal: ClosedDays, d: Day) {
    d in cal.postageDates
  }

  /**
   * Apart from specific closure dates, whether the store is closed repeats
   * every week: the weekday name of d + 7k is the weekday name of d.
   */
  lemma StoreClosedWeekly(cal: ClosedDays, d: Day, k: int)
    requires d !in cal.storeDates && d + 7 * k !in cal.storeDates
    ensures StoreClosed(cal, d) <==> StoreClosed(cal, d + 7 * k)
  {
    assert (d + 7 * k) % 7 == d % 7;
  }

  predicate IsClosed(cal: ClosedDays, d: Day) {
    StoreClosed(cal, d) || PostageHoliday(cal, d)
  }

  /**
   * At least one weekday is open. The date sets are finite, so this is what
   * makes every "skip forward while closed" loop end.
   */
  predicate HasOpenWeekday(cal: ClosedDays) {
    exists i :: 0 <= i < 7 && WeekdayNames[i] !in cal.weekly
  }

  /** The number of open days in the interval (a, b]. */
  function OpenCount(cal: ClosedDays, a: Day, b: Day): nat
    decreases b - a
  {
    if b <= a then 0 else OpenCount(cal, a, b - 1) + (if IsClosed(cal, b) then 0 else 1)
  }

  /** Every day in [a, b) is closed. */
  predicate AllClosed(cal: ClosedDays, a: Day, b: Day) {
    forall k :: a <= k < b ==> IsClosed(cal, k)
  }

  /** r is the first open day at or after d. */
  predicate IsFirstOpenFrom(cal: ClosedDays, d: Day, r: Day) {
    d <= r && !IsClosed(cal, r) && AllClosed(cal, d, r)
  }

  /** r is the n-th open day strictly after d (n >= 1). */
  predicate IsNthOpenAfter(cal: ClosedDays, d: Day, n: nat, r: Day) {
    d < r && !IsClosed(cal, r) && OpenCount(cal, d, r) == n
  }

  /**
   * "d plus n working days, never landing on a closed day": the n-th open day
   * after d, or for n = 0 the first open day at or after d.
   */
  predicate IsWorkingDaysLater(cal: ClosedDays, d: Day, n: nat, r: Day) {
    if n == 0 then IsFirstOpenFrom(cal, d, r) else IsNthOpenAfter(cal, d, n, r)
  }

  // ---------------------------------------------------------------------
  // Existence of open days (the loops' termination witnesses)
  // ---------------------------------------------------------------------

  /** Every finite set of days lies below some day. */
  lemma UpperBound(s: set<int>) returns (b: int)
    ensures forall x :: x in s ==> x < b
  {
    if forall y :: y !in s {
      b := 0;
    } else {
      var x :| x in s;
      var b' := UpperBound(s - {x});
      b := if x < b' then b' else x + 1;
      assert forall y :: y in s ==> y == x || y in s - {x};
    }
  }

  /** Within any seven consecutive days every weekday occurs. */
  lemma DayWithWeekday(from: Day, i: int) returns (e: Day)
    requires 0 <= i < 7
    ensures from <= e < from + 7 && e % 7 == i
  {
    var q, r := from / 7, from % 7;
    assert from == 7 * q + r;
    if r <= i {
      e := 7 * q + i;
    } else {
      e := 7 * (q + 1) + i;
    }
  }

  /** With one weekday open there is an open day at or after any day. */
  lemma OpenDayAtOrAfter(cal: ClosedDays, d: Day) returns (e: Day)
    requires HasOpenWeekday(cal)
    ensures d <= e && !IsClosed(cal, e)
  {
    var i :| 0 <= i < 7 && WeekdayNames[i] !in cal.weekly;
    var b := UpperBound(cal.storeDates + cal.postageDates);
    e := DayWithWeekday(if d < b then b else d, i);
    assert WeekdayName(e) == WeekdayNames[i];
  }

  lemma OpenDayAfter(cal: ClosedDays, d: Day) returns (e: Day)
    requires HasOpenWeekday(cal)
    ensures d < e && !IsClosed(cal, e)
  {
    e := OpenDayAtOrAfter(cal, d + 1);
  }

  // ---------------------------------------------------------------------
  // Counting open days
  // ---------------------------------------------------------------------

  /** Counting over (a, b] splits at any intermediate day. */
  lemma {:induction false} OpenCountSplit(cal: ClosedDays, a: Day, m: Day, b: Day)
    requires a <= m <= b
    ensures OpenCount(cal, a, b) == OpenCount(cal, a, m) + OpenCount(cal, m, b)
    decreases b - m
  {
    if m < b {
      OpenCountSplit(cal, a, m, b - 1);
    }
  }

  /** An open day after m makes the count from m positive. */
  lemma OpenCountReaches(cal: ClosedDays, m: Day, b: Day)
    requires m < b && !IsClosed(cal, b)
    ensures OpenCount(cal, m, b) >= 1
  {
  }

  /** The n-th open day after d is unique. */
  lemma NthOpenUnique(cal: ClosedDays, d: Day, n: nat, r1: Day, r2: Day)
    requires IsNthOpenAfter(cal, d, n, r1) && IsNthOpenAfter(cal, d, n, r2)
    ensures r1 == r2
  {
    if r1 < r2 {
      OpenCountSplit(cal, d, r1, r2);
      OpenCountReaches(cal, r1, r2);
    } else if r2 < r1 {
      OpenCountSplit(cal, d, r2, r1);
      OpenCountReaches(cal, r2, r1);
    }
  }

  /** The first open day at or after d is unique. */
  lemma FirstOpenUnique(cal: ClosedDays, d: Day, r1: Day, r2: Day)
    requires IsFirstOpenFrom(cal, d, r1) && IsFirstOpenFrom(cal, d, r2)
    ensures r1 == r2
  {
  }

  /** "N working days later" determines its result. */
  lemma WorkingDaysLaterUnique(cal: ClosedDays, d: Day, n: nat, r1: Day, r2: Day)
    requires IsWorkingDaysLater(cal, d, n, r1) && IsWorkingDaysLater(cal, d, n, r2)
    ensures r1 == r2
  {
    if n == 0 {
      FirstOpenUnique(cal, d, r1, r2);
    } else {
      NthOpenUnique(cal, d, n, r1, r2);
    }
  }

  /** More working days never give an earlier date. */
  lemma NthOpenMonotone(cal: ClosedDays, d: Day, a: nat, b: nat, ra: Day, rb: Day)
    requires a <= b
    requires IsNthOpenAfter(cal, d, a, ra) && IsNthOpenAfter(cal, d, b, rb)
    ensures ra <= rb
  {
    if rb < ra {
      OpenCountSplit(cal, d, rb, ra);
      OpenCountReaches(cal, rb, ra);
    }
  }

  /** Starting from a day that is already open, adding no working days stays put. */
  lemma OpenDayIsFirstOpen(cal: ClosedDays, d: Day)
    requires !IsClosed(cal, d)
    ensures IsWorkingDaysLater(cal, d, 0, d)
  {
  }

  /**
   * Counting a working days and then b more lands where counting a + b at
   * once does, provided the start is open or a is positive.
   */
  lemma WorkingDaysChain(cal: ClosedDays, d: Day, a: nat, b: nat, e: Day, r: Day)
    requires !IsClosed(cal, d) || a > 0
    requires IsWorkingDaysLater(cal, d, a, e) && IsWorkingDaysLater(cal, e, b, r)
    ensures IsWorkingDaysLater(cal, d, a + b, r)
  {
    if a == 0 {
      FirstOpenUnique(cal, d, d, e);
    } else if b == 0 {
      FirstOpenUnique(cal, e, e, r);
    } else {
      OpenCountSplit(cal, d, e, r);
    }
  }

  /**
   * A working-day result is open, not before its start (strictly after it
   * when n > 0), and settled: counting 0 more working days from it, which
   * is the final skip alone, stays on it.
   */
  lemma WorkingDaysLaterSettled(cal: ClosedDays, d: Day, n: nat, r: Day)
    requires IsWorkingDaysLater(cal, d, n, r)
    ensures d <= r && !IsClosed(cal, r)
    ensures n > 0 ==> d < r
    ensures forall r' :: IsWorkingDaysLater(cal, r, 0, r') ==> r' == r
  {
    forall r' | IsWorkingDaysLater(cal, r, 0, r')
      ensures r' == r
    {
      FirstOpenUnique(cal, r, r, r');
    }
  }

  /** With nothing closed, working days are calendar days. */
  lemma {:induction false} OpenCountNoClosures(cal: ClosedDays, a: Day, b: Day)
    requires cal.weekly == {} && cal.storeDates == {} && cal.postageDates == {}
    requires a <= b
    ensures OpenCount(cal, a, b) == b - a
    decreases b - a
  {
    if a < b {
      OpenCountNoClosures(cal, a, b - 1);
    }
  }
}
