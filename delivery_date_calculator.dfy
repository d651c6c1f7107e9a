/**
 * WC_EDD_Delivery_Date_Calculator, the oldest version of the engine
 * (includes/class-delivery-date-calculator.php).
 *
 * Lead time plus transit time is added as plain calendar days, and the date
 * is then moved forward while it is on a listed closed date. The closed
 * dates are the 'store_closed_days' and 'postage_closed_days' lists of the
 * general settings, merged into one set.
 */
module DeliveryDateCalculator {
  import opened Php
  import opened Calendar
  import opened ShippingMethods
  import opened ProductMeta

  /** The entries of 'wc_edd_general_settings' this calculator reads. */
  datatype Settings = Settings(
    defaultLeadTimeMin: Value,
    defaultLeadTimeMax: Value,
    storeClosedDays: Option<set<Day>>,
    postageClosedDays: Option<set<Day>>,
    dateFormat: Option<string>,
    displayFormat: Option<string>)

  /** The ['min' => int, 'max' => int] transit array; nothing orders the two. */
  datatype TransitTimes = TransitTimes(min: int, max: int)

  const DEFAULT_DATE_FORMAT: string := "F j, Y"
  const DEFAULT_DISPLAY_FORMAT: string := "range"

  const SECONDS_PER_DAY: int := 86400

  /**
   * get_shipping_transit_times: {0, 0} for a falsy method id or one the
   * option does not hold; otherwise (int) of the method's 'min' and 'max',
   * each 0 when unset. There is no min <= max clamp.
   */
  function GetShippingTransitTimes(methods: seq<MethodEntry>, shippingMethod: string): (r: TransitTimes)
    ensures !Truthy(shippingMethod) ==> r == TransitTimes(0, 0)
    ensures Lookup(methods, shippingMethod).None? ==> r == TransitTimes(0, 0)
    ensures Truthy(shippingMethod) && Lookup(methods, shippingMethod).Some? ==>
      var m := Lookup(methods, shippingMethod).value;
      r.min == (if IsSet(Get(m, "min")) then IntVal(Get(m, "min")) else 0) &&
      r.max == (if IsSet(Get(m, "max")) then IntVal(Get(m, "max")) else 0)
  {
    if !Truthy(shippingMethod) then TransitTimes(0, 0)
    else
      match Lookup(methods, shippingMethod)
      case None => TransitTimes(0, 0)
      case Some(m) =>
        TransitTimes(if IsSet(Get(m, "min")) then IntVal(Get(m, "min")) else 0,
                     if IsSet(Get(m, "max")) then IntVal(Get(m, "max")) else 0)
  }

  /** A method configured with min 5 and max 2 keeps that order. */
  lemma TransitTimesNotClamped()
    ensures GetShippingTransitTimes([MethodEntry("flat_rate:1", map["min" := Numeric(5), "max" := Numeric(2)])],
                                    "flat_rate:1") == TransitTimes(5, 2)
  {
  }

  /** The merged store and postage closed dates; an unset list contributes nothing. */
  function ClosedSet(settings: Settings): (closed: set<Day>)
    ensures forall d :: d in closed <==>
      (settings.storeClosedDays.Some? && d in settings.storeClosedDays.value) ||
      (settings.postageClosedDays.Some? && d in settings.postageClosedDays.value)
  {
    settings.storeClosedDays.GetOr({}) + settings.postageClosedDays.GetOr({})
  }

  /** r is the first day at or after d that is not a closed date. */
  predicate IsFirstOutside(closed: set<Day>, d: Day, r: Day) {
    d <= r && r !in closed && forall k :: d <= k < r ==> k in closed
  }

  /** The first day outside the closed dates is unique. */
  lemma FirstOutsideUnique(closed: set<Day>, d: Day, r1: Day, r2: Day)
    requires IsFirstOutside(closed, d, r1) && IsFirstOutside(closed, d, r2)
    ensures r1 == r2
  {
  }

  /** Adjusting a later date never gives an earlier result. */
  lemma FirstOutsideMonotone(closed: set<Day>, a: Day, b: Day, ra: Day, rb: Day)
    requires a <= b
    requires IsFirstOutside(closed, a, ra) && IsFirstOutside(closed, b, rb)
    ensures ra <= rb
  {
  }

  /**
   * adjust_for_closed_days at the granularity of days: one day forward at a
   * time while the date is a closed date. The list is finite, so no weekday
   * needs to stay open for this loop to stop.
   */
  method AdjustForClosedDays(closed: set<Day>, date: Day) returns (r: Day)
    ensures IsFirstOutside(closed, date, r)
  {
    ghost var bound := UpperBound(closed);
    r := date;
    while r in closed
      invariant date <= r && (r <= bound || r == date)
      invariant forall k :: date <= k < r ==> k in closed
      decreases bound - r
    {
      r := r + 1;
    }
  }

  /**
   * adjust_for_closed_days as written: the date's full timestamp, time of
   * day included, is looked up among the closed dates' strtotime values,
   * and the date is moved on by one day (86400 seconds) while it is found.
   */
  method AdjustForClosedTimestamps(closedStamps: set<int>, timestamp: int) returns (r: int)
    ensures r !in closedStamps && timestamp <= r
    ensures (r - timestamp) % SECONDS_PER_DAY == 0
    ensures forall k :: 0 <= k < (r - timestamp) / SECONDS_PER_DAY ==> timestamp + k * SECONDS_PER_DAY in closedStamps
    ensures timestamp !in closedStamps ==> r == timestamp
  {
    ghost var bound := UpperBound(closedStamps);
    r := timestamp;
    ghost var steps := 0;
    while r in closedStamps
      invariant r == timestamp + steps * SECONDS_PER_DAY && 0 <= steps
      invariant r < bound + SECONDS_PER_DAY || r == timestamp
      invariant forall k :: 0 <= k < steps ==> timestamp + k * SECONDS_PER_DAY in closedStamps
      decreases bound + SECONDS_PER_DAY - r
    {
      r := r + SECONDS_PER_DAY;
      steps := steps + 1;
    }
    assert (r - timestamp) / SECONDS_PER_DAY == steps;
  }

  /**
   * strtotime('Y-m-d') gives a midnight timestamp; a "now" with any other
   * time of day is never among them, so the as-written adjustment leaves the
   * date on a closed day: with store_closed_days "1970-01-02" (day 1) and the
   * time now 1970-01-02 10:30, the date stays on day 1.
   */
  lemma TimeOfDayDefeatsClosedDays(closedDays: set<Day>, timestamp: int)
    requires timestamp % SECONDS_PER_DAY != 0
    ensures timestamp !in set d | d in closedDays :: d * SECONDS_PER_DAY
  {
  }

  /**
   * calculate_delivery_dates: the minimum date is now plus lead.min +
   * transit.min calendar days, the maximum now plus lead.max + transit.max,
   * each then adjusted past closed dates; no working days are counted.
   */
  method CalculateDeliveryDates(settings: Settings, product: LeadTimeMeta, methods: seq<MethodEntry>,
                                shippingMethod: string, now: Day) returns (r: DeliveryRange)
    ensures var lead := GetProductLeadTime(product, settings.defaultLeadTimeMin, settings.defaultLeadTimeMax);
      var transit := GetShippingTransitTimes(methods, shippingMethod);
      && IsFirstOutside(ClosedSet(settings), now + lead.min + transit.min, r.start)
      && IsFirstOutside(ClosedSet(settings), now + lead.max + transit.max, r.end)
    ensures r.start !in ClosedSet(settings) && r.end !in ClosedSet(settings)
    ensures var lead := GetProductLeadTime(product, settings.defaultLeadTimeMin, settings.defaultLeadTimeMax);
      var transit := GetShippingTransitTimes(methods, shippingMethod);
      lead.min + transit.min <= lead.max + transit.max ==> r.start <= r.end
  {
    var leadTimes := GetProductLeadTime(product, settings.defaultLeadTimeMin, settings.defaultLeadTimeMax);
    var transitTimes := GetShippingTransitTimes(methods, shippingMethod);
    var closed := ClosedSet(settings);
    var minDate := AdjustForClosedDays(closed, now + (leadTimes.min + transitTimes.min));
    var maxDate := AdjustForClosedDays(closed, now + (leadTimes.max + transitTimes.max));
    if leadTimes.min + transitTimes.min <= leadTimes.max + transitTimes.max {
      FirstOutsideMonotone(closed, now + (leadTimes.min + transitTimes.min),
                           now + (leadTimes.max + transitTimes.max), minDate, maxDate);
    }
    r := DeliveryRange(minDate, maxDate);
  }

  /**
   * Since neither the lead time nor the transit time is reordered, a product
   * with minimum 5 and maximum 2 and no method gives a minimum date after
   * the maximum one when nothing is closed.
   */
  lemma InvertedRangeFromUnorderedMeta(settings: Settings, now: Day, start: Day, end: Day)
    requires ClosedSet(settings) == {}
    requires IsFirstOutside(ClosedSet(settings), now + 5, start) && IsFirstOutside(ClosedSet(settings), now + 2, end)
    ensures GetProductLeadTime(LeadTimeMeta(Numeric(5), Numeric(2)), settings.defaultLeadTimeMin,
                               settings.defaultLeadTimeMax) == LeadTime(5, 2)
    ensures GetShippingTransitTimes([], "") == TransitTimes(0, 0)
    ensures end < start
  {
    FirstOutsideUnique(ClosedSet(settings), now + 5, start, now + 5);
    FirstOutsideUnique(ClosedSet(settings), now + 2, end, now + 2);
  }

  /**
   * format_delivery_date: "min - max" in the 'range' display format (the
   * default), even when both dates format alike; otherwise the max date
   * alone. Dates are formatted with the stored date format, 'F j, Y' by
   * default.
   */
  function FormatDeliveryDate(settings: Settings, dates: DeliveryRange, fmt: (string, Day) -> string): (s: string)
    ensures var df := settings.dateFormat.GetOr(DEFAULT_DATE_FORMAT);
      settings.displayFormat.GetOr(DEFAULT_DISPLAY_FORMAT) == "range" ==>
        s == fmt(df, dates.start) + " - " + fmt(df, dates.end)
    ensures var df := settings.dateFormat.GetOr(DEFAULT_DATE_FORMAT);
      settings.displayFormat.GetOr(DEFAULT_DISPLAY_FORMAT) != "range" ==> s == fmt(df, dates.end)
  {
    var dateFormat := settings.dateFormat.GetOr(DEFAULT_DATE_FORMAT);
    var displayFormat := settings.displayFormat.GetOr(DEFAULT_DISPLAY_FORMAT);
    if displayFormat == "range" then fmt(dateFormat, dates.start) + " - " + fmt(dateFormat, dates.end)
    else fmt(dateFormat, dates.end)
  }

  /** The range display never collapses: equal dates still print as "X - X", longer than X. */
  lemma RangeNeverCollapses(settings: Settings, d: Day, fmt: (string, Day) -> string)
    requires settings.displayFormat.None? || settings.displayFormat == Some("range")
    ensures var x := fmt(settings.dateFormat.GetOr(DEFAULT_DATE_FORMAT), d);
      FormatDeliveryDate(settings, DeliveryRange(d, d), fmt) == x + " - " + x &&
      |FormatDeliveryDate(settings, DeliveryRange(d, d), fmt)| == 2 * |x| + 3
  {
  }
}
