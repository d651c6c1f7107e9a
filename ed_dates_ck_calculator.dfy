/**
 * ED_Dates_CK_Calculator, the older version of the engine
 * (includes/class-ed-dates-ck-calculator.php).
 *
 * It reads its options on every call, so they are passed in as one value.
 * Compared with the newest version: the start date obeys an order cutoff
 * time, the business-day advancer has no final skip, the earliest and the
 * latest dates are both counted from the start date, and the day totals are
 * the lead time plus the minimum and maximum of a list of transit times.
 */
module EdDatesCkCalculator {
  import opened Php
  import opened Calendar

  /** What get_option returns for a list option: nothing stored, an array, or something else. */
  datatype Stored<T> = Unset | List(items: set<T>) | NotArray

  /** The options is_closed_day and get_start_date read. */
  datatype Options = Options(
    shopClosedDays: Stored<string>,   // 'ed_dates_ck_shop_closed_days'
    shopHolidays: Stored<Day>,        // 'ed_dates_ck_shop_holidays'
    postageHolidays: Stored<Day>,     // 'ed_dates_ck_postage_holidays'
    orderCutoffTime: Option<string>)  // 'ed_dates_ck_order_cutoff_time'

  const DEFAULT_CUTOFF: string := "16:00"

  /** The lead time plus the smallest and the largest transit time. */
  datatype Totals = Totals(min: int, max: int)

  /** The weekly closed days: the stored array, or ['sunday'] when unset or not an array. */
  function WeeklyClosed(s: Stored<string>): (names: set<string>)
    ensures s.List? ==> names == s.items
    ensures !s.List? ==> names == {"sunday"}
  {
    if s.List? then s.items else {"sunday"}
  }

  /** A holiday list: the stored array, or [] when unset or not an array. */
  function HolidayList(s: Stored<Day>): (days: set<Day>)
    ensures s.List? ==> days == s.items
    ensures !s.List? ==> days == {}
  {
    if s.List? then s.items else {}
  }

  /** The calendar the options describe, in the form the working-day theory uses. */
  function ClosedDaysOf(opts: Options): ClosedDays {
    ClosedDays(WeeklyClosed(opts.shopClosedDays), HolidayList(opts.shopHolidays), HolidayList(opts.postageHolidays))
  }

  /**
   * is_closed_day($date). None stands for an argument that is not a
   * DateTime, which is never closed.
   */
  function IsClosedDay(opts: Options, date: Option<Day>): (closed: bool)
    ensures date.None? ==> !closed
    ensures date.Some? ==> (closed <==>
      WeekdayName(date.value) in WeeklyClosed(opts.shopClosedDays) ||
      date.value in HolidayList(opts.shopHolidays) ||
      date.value in HolidayList(opts.postageHolidays))
    ensures date.Some? ==> (closed <==> IsClosed(ClosedDaysOf(opts), date.value))
  {
    match date
    case None => false
    case Some(d) =>
      if WeekdayName(d) in WeeklyClosed(opts.shopClosedDays) then true
      else if d in HolidayList(opts.shopHolidays) then true
      else d in HolidayList(opts.postageHolidays)
  }

  /** The cutoff time, "16:00" when the option is not stored. */
  function Cutoff(opts: Options): string {
    opts.orderCutoffTime.GetOr(DEFAULT_CUTOFF)
  }

  /** The day counting starts from: tomorrow when the "H:i" time now is past the cutoff. */
  function BaseDay(opts: Options, nowDay: Day, nowTime: string): (base: Day)
    ensures StrGreater(nowTime, Cutoff(opts)) ==> base == nowDay + 1
    ensures !StrGreater(nowTime, Cutoff(opts)) ==> base == nowDay
  {
    if StrGreater(nowTime, Cutoff(opts)) then nowDay + 1 else nowDay
  }

  /**
   * get_start_date: moves one day on when the time now is strictly later
   * (as strings) than the cutoff, then skips closed days.
   */
  method GetStartDate(opts: Options, nowDay: Day, nowTime: string) returns (start: Day)
    requires HasOpenWeekday(ClosedDaysOf(opts))
    ensures IsFirstOpenFrom(ClosedDaysOf(opts), BaseDay(opts, nowDay, nowTime), start)
    ensures nowDay <= start && !IsClosedDay(opts, Some(start))
  {
    start := nowDay;
    if StrGreater(nowTime, Cutoff(opts)) {
      start := start + 1;
    }
    ghost var base := start;
    ghost var open := OpenDayAtOrAfter(ClosedDaysOf(opts), base);
    while IsClosedDay(opts, Some(start))
      invariant base <= start <= open
      invariant AllClosed(ClosedDaysOf(opts), base, start)
      decreases open - start
    {
      start := start + 1;
    }
  }

  /**
   * get_lead_time: the product's '_ed_dates_ck_lead_time' meta read with
   * intval when it is not '', else the default passed in. None stands for
   * a missing or zero product id.
   */
  function GetLeadTime(product: Option<MetaValue>, defaultLeadTime: int): (lead: int)
    ensures product.Some? && product.value != Blank ==> lead == IntVal(product.value)
    ensures product.None? || product.value == Blank ==> lead == defaultLeadTime
  {
    if product.Some? && product.value != Blank then IntVal(product.value) else defaultLeadTime
  }

  /** m is $min_transit after the loop: PHP_INT_MAX lowered to every transit time. */
  ghost predicate IsMinWithSentinel(transits: seq<Value>, m: int) {
    && m <= PHP_INT_MAX
    && (forall k :: 0 <= k < |transits| ==> m <= IntVal(transits[k]))
    && (m == PHP_INT_MAX || exists k :: 0 <= k < |transits| && IntVal(transits[k]) == m)
  }

  /** m is $max_transit after the loop: 0 raised to every transit time. */
  ghost predicate IsMaxWithFloor(transits: seq<Value>, m: int) {
    && 0 <= m
    && (forall k :: 0 <= k < |transits| ==> IntVal(transits[k]) <= m)
    && (m == 0 || exists k :: 0 <= k < |transits| && IntVal(transits[k]) == m)
  }

  /** t is lead + min and lead + max of the transit times. */
  ghost predicate IsTotals(lead: int, transits: seq<Value>, t: Totals) {
    IsMinWithSentinel(transits, t.min - lead) && IsMaxWithFloor(transits, t.max - lead)
  }

  /**
   * calculate_total_days. The transit times are what the class's
   * get_transit_times would return; an empty list gives false (None).
   */
  method CalculateTotalDays(product: Option<MetaValue>, defaultLeadTime: int, transitTimes: seq<Value>)
    returns (r: Option<Totals>)
    ensures r.None? <==> transitTimes == []
    ensures r.Some? ==> IsTotals(GetLeadTime(product, defaultLeadTime), transitTimes, r.value)
  {
    var leadTime := GetLeadTime(product, defaultLeadTime);
    if transitTimes == [] {
      return None;
    }
    var minTransit := PHP_INT_MAX;
    var maxTransit := 0;
    for i := 0 to |transitTimes|
      invariant IsMinWithSentinel(transitTimes[..i], minTransit)
      invariant IsMaxWithFloor(transitTimes[..i], maxTransit)
    {
      var transitDays := IntVal(transitTimes[i]);
      assert forall k :: 0 <= k < i ==> transitTimes[..i + 1][k] == transitTimes[..i][k];
      minTransit := if minTransit <= transitDays then minTransit else transitDays;
      maxTransit := if maxTransit >= transitDays then maxTransit else transitDays;
    }
    assert transitTimes[..|transitTimes|] == transitTimes;
    r := Some(Totals(leadTime + minTransit, leadTime + maxTransit));
  }

  /** A non-empty transit list gives totals with min <= max. */
  lemma TotalsOrdered(lead: int, transits: seq<Value>, t: Totals)
    requires transits != [] && IsTotals(lead, transits, t)
    ensures t.min <= t.max
  {
    assert t.min - lead <= IntVal(transits[0]) <= t.max - lead;
  }

  /** With no negative lead or transit time, both totals are non-negative. */
  lemma TotalsNonNegative(lead: int, transits: seq<Value>, t: Totals)
    requires 0 <= lead && forall k :: 0 <= k < |transits| ==> 0 <= IntVal(transits[k])
    requires IsTotals(lead, transits, t)
    ensures 0 <= t.min <= t.max || transits == []
  {
    if transits != [] {
      assert 0 <= IntVal(transits[0]);
      TotalsOrdered(lead, transits, t);
    }
  }

  /** r is d advanced by n open days, with no skip at the end: d itself when n = 0. */
  predicate IsBusinessDaysLater(cal: ClosedDays, d: Day, n: nat, r: Day) {
    if n == 0 then r == d else IsNthOpenAfter(cal, d, n, r)
  }

  /**
   * add_business_days: absint of the count, then one day at a time, counting
   * only open days. A count of 0 returns the date unchanged, closed or not.
   */
  method AddBusinessDays(opts: Options, date: Day, days: int) returns (r: Day)
    requires HasOpenWeekday(ClosedDaysOf(opts))
    ensures IsBusinessDaysLater(ClosedDaysOf(opts), date, Abs(days), r)
    ensures days == 0 ==> r == date
    ensures days != 0 ==> date < r && !IsClosedDay(opts, Some(r))
  {
    ghost var cal := ClosedDaysOf(opts);
    r := date;
    var n := Abs(days);
    ghost var open := OpenDayAfter(cal, r);
    while n > 0
      invariant date <= r < open && !IsClosed(cal, open)
      invariant 0 <= n <= Abs(days)
      invariant OpenCount(cal, date, r) == Abs(days) - n
      invariant n == 0 && Abs(days) > 0 ==> !IsClosed(cal, r)
      invariant Abs(days) == 0 ==> r == date
      invariant n < Abs(days) ==> date < r
      decreases n, open - r
    {
      r := r + 1;
      if !IsClosedDay(opts, Some(r)) {
        n := n - 1;
        open := OpenDayAfter(cal, r);
      }
    }
  }

  /**
   * calculate_delivery_range: both dates are counted from the same start
   * date, by the absint of the minimum and of the maximum total; no totals
   * (an empty transit list) give an empty array (None).
   */
  method CalculateDeliveryRange(opts: Options, nowDay: Day, nowTime: string, product: Option<MetaValue>,
                                defaultLeadTime: int, transitTimes: seq<Value>)
    returns (r: Option<DeliveryRange>)
    requires HasOpenWeekday(ClosedDaysOf(opts))
    ensures r.None? <==> transitTimes == []
    ensures r.Some? ==> exists start, t :: (
      && IsFirstOpenFrom(ClosedDaysOf(opts), BaseDay(opts, nowDay, nowTime), start)
      && IsTotals(GetLeadTime(product, defaultLeadTime), transitTimes, t)
      && IsBusinessDaysLater(ClosedDaysOf(opts), start, Abs(t.min), r.value.start)
      && IsBusinessDaysLater(ClosedDaysOf(opts), start, Abs(t.max), r.value.end))
    ensures r.Some? ==> nowDay <= r.value.start && nowDay <= r.value.end
    ensures r.Some? ==> !IsClosedDay(opts, Some(r.value.start)) && !IsClosedDay(opts, Some(r.value.end))
    ensures (r.Some? && 0 <= GetLeadTime(product, defaultLeadTime) &&
             forall k :: 0 <= k < |transitTimes| ==> 0 <= IntVal(transitTimes[k])) ==>
      r.value.start <= r.value.end
  {
    var startDate := GetStartDate(opts, nowDay, nowTime);
    var totalDays := CalculateTotalDays(product, defaultLeadTime, transitTimes);
    if totalDays.None? {
      return None;
    }
    var earliest := AddBusinessDays(opts, startDate, totalDays.value.min);
    var latest := AddBusinessDays(opts, startDate, totalDays.value.max);
    if 0 <= GetLeadTime(product, defaultLeadTime) && forall k :: 0 <= k < |transitTimes| ==> 0 <= IntVal(transitTimes[k]) {
      TotalsNonNegative(GetLeadTime(product, defaultLeadTime), transitTimes, totalDays.value);
      IndependentRangeOrdered(ClosedDaysOf(opts), startDate, totalDays.value.min, totalDays.value.max, earliest, latest);
    }
    r := Some(DeliveryRange(earliest, latest));
  }

  /** Counting fewer business days from the same start never gives a later date. */
  lemma IndependentRangeOrdered(cal: ClosedDays, start: Day, lo: nat, hi: nat, earliest: Day, latest: Day)
    requires lo <= hi
    requires IsBusinessDaysLater(cal, start, lo, earliest) && IsBusinessDaysLater(cal, start, hi, latest)
    ensures earliest <= latest
  {
    if lo > 0 {
      NthOpenMonotone(cal, start, lo, hi, earliest, latest);
    }
  }

  /**
   * absint turns a negative total into a positive count: with a lead time of
   * -5 and transit times -3 and 2 the totals are -8 and -3, so on a calendar
   * with nothing closed the earliest date falls five days after the latest.
   */
  lemma NegativeTotalsCrossOver(start: Day, t: Totals, earliest: Day, latest: Day)
    requires IsTotals(-5, [Numeric(-3), Numeric(2)], t)
    requires IsBusinessDaysLater(ClosedDays({}, {}, {}), start, Abs(t.min), earliest)
    requires IsBusinessDaysLater(ClosedDays({}, {}, {}), start, Abs(t.max), latest)
    ensures earliest == latest + 5
  {
    var ts := [Numeric(-3), Numeric(2)];
    assert IntVal(ts[0]) == -3 && IntVal(ts[1]) == 2;
    assert t == Totals(-8, -3);
    OpenCountNoClosures(ClosedDays({}, {}, {}), start, earliest);
    OpenCountNoClosures(ClosedDays({}, {}, {}), start, latest);
  }
}
