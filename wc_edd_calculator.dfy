/**
 * WC_EDD_Calculator, the newest version of the engine
 * (includes/class-wc-edd-calculator.php).
 *
 * The settings arrays are loaded once, in the constructor, into private
 * fields that nothing reassigns afterwards; here they are constant fields of
 * a class. "Now" is a parameter.
 */
module WcEddCalculator {
  import opened Php
  import opened Calendar
  import opened ShippingMethods

  /** The ['min' => int, 'max' => int] arrays the resolvers return. */
  datatype DayRange = DayRange(min: nat, max: nat)

  /** A product's '_wc_edd_min_lead_time' and '_wc_edd_max_lead_time' meta. */
  datatype LeadMeta = LeadMeta(minMeta: MetaValue, maxMeta: MetaValue)

  /** The 'general' entries of 'wc_edd_settings' the calculator reads. */
  datatype GeneralSettings = GeneralSettings(defaultLeadTimeMin: Value, defaultLeadTimeMax: Value, daysToAdd: Value)

  const DEFAULT_LEAD_MIN: nat := 1
  const DEFAULT_LEAD_MAX: nat := 3
  const DEFAULT_TRANSIT_MIN: nat := 1
  const DEFAULT_TRANSIT_MAX: nat := 5

  function Min(a: int, b: int): int {
    if a <= b then a else b
  }

  function Max(a: int, b: int): int {
    if a >= b then a else b
  }

  // ---------------------------------------------------------------------
  // Transit time: one method, or the aggregate over all methods
  // ---------------------------------------------------------------------

  /** A bound of a known method: set and not '' gives absint of it, otherwise the default. */
  function TransitBound(v: Value, default: nat): (r: nat)
    ensures IsSet(v) && !v.Blank? ==> r == AbsInt(v)
    ensures !IsSet(v) || v.Blank? ==> r == default
  {
    if IsSet(v) && v != Blank then AbsInt(v) else default
  }

  /** The transit range of a configured method, with max raised to min. */
  function KnownMethodRange(settings: map<string, Value>): (r: DayRange)
    ensures r.min == TransitBound(Get(settings, "min_transit"), DEFAULT_TRANSIT_MIN)
    ensures r.max == Max(r.min, TransitBound(Get(settings, "max_transit"), DEFAULT_TRANSIT_MAX))
  {
    var lo := TransitBound(Get(settings, "min_transit"), DEFAULT_TRANSIT_MIN);
    var hi := TransitBound(Get(settings, "max_transit"), DEFAULT_TRANSIT_MAX);
    if lo > hi then DayRange(lo, lo) else DayRange(lo, hi)
  }

  /** A bound the aggregate takes into account: set, not '' and numeric. */
  predicate ValidBound(v: Value) {
    IsSet(v) && v != Blank && IsNumeric(v)
  }

  predicate HasValidMin(e: MethodEntry) {
    ValidBound(Get(e.settings, "min_transit"))
  }

  predicate HasValidMax(e: MethodEntry) {
    ValidBound(Get(e.settings, "max_transit"))
  }

  function MinOf(e: MethodEntry): nat {
    AbsInt(Get(e.settings, "min_transit"))
  }

  function MaxOf(e: MethodEntry): nat {
    AbsInt(Get(e.settings, "max_transit"))
  }

  /**
   * $overall_min after the loop has seen the entries es: PHP_INT_MAX lowered
   * to each valid minimum.
   */
  function SmallestMin(es: seq<MethodEntry>): (m: nat)
    ensures m <= PHP_INT_MAX
    ensures forall k :: 0 <= k < |es| && HasValidMin(es[k]) ==> m <= MinOf(es[k])
    ensures m == PHP_INT_MAX || exists k :: 0 <= k < |es| && HasValidMin(es[k]) && m == MinOf(es[k])
    decreases |es|
  {
    if es == [] then PHP_INT_MAX
    else
      var init, last := es[..|es| - 1], es[|es| - 1];
      var acc := SmallestMin(init);
      assert forall k :: 0 <= k < |init| ==> es[k] == init[k];
      if HasValidMin(last) then Min(acc, MinOf(last)) else acc
  }

  /** $overall_max after the loop has seen es: 0 raised to each valid maximum. */
  function LargestMax(es: seq<MethodEntry>): (m: nat)
    ensures forall k :: 0 <= k < |es| && HasValidMax(es[k]) ==> MaxOf(es[k]) <= m
    ensures m == 0 || exists k :: 0 <= k < |es| && HasValidMax(es[k]) && m == MaxOf(es[k])
    decreases |es|
  {
    if es == [] then 0
    else
      var init, last := es[..|es| - 1], es[|es| - 1];
      var acc := LargestMax(init);
      assert forall k :: 0 <= k < |init| ==> es[k] == init[k];
      if HasValidMax(last) then Max(acc, MaxOf(last)) else acc
  }

  /** $found_valid after the loop has seen es. */
  function FoundValid(es: seq<MethodEntry>): (b: bool)
    ensures b <==> exists k :: 0 <= k < |es| && (HasValidMin(es[k]) || HasValidMax(es[k]))
    decreases |es|
  {
    if es == [] then false
    else
      var init, last := es[..|es| - 1], es[|es| - 1];
      var acc := FoundValid(init);
      assert forall k :: 0 <= k < |init| ==> es[k] == init[k];
      acc || HasValidMin(last) || HasValidMax(last)
  }

  /** What the aggregate returns once the loop has produced its three values. */
  function AggregateResult(found: bool, overallMin: nat, overallMax: nat): (r: DayRange)
    requires overallMin <= PHP_INT_MAX
    ensures r.min <= r.max
    ensures !found ==> r == DayRange(DEFAULT_TRANSIT_MIN, DEFAULT_TRANSIT_MAX)
    ensures found ==> r.max == overallMax
    ensures found && overallMax < PHP_INT_MAX ==> r.min == Min(overallMin, overallMax)
  {
    if !found then DayRange(DEFAULT_TRANSIT_MIN, DEFAULT_TRANSIT_MAX)
    else
      var lo := if overallMin > overallMax then overallMax else overallMin;
      var hi := if overallMax < lo then lo else overallMax;
      DayRange(if lo == PHP_INT_MAX then DEFAULT_TRANSIT_MIN else lo, hi)
  }

  /**
   * The aggregate range over every configured method. It has min <= max; its
   * max is the largest valid maximum and its min never exceeds a valid
   * minimum; when the smallest minimum is below the largest maximum it spans
   * exactly from one to the other; and with nothing valid it is {1, 5}.
   */
  function AggregateRange(es: seq<MethodEntry>): (r: DayRange)
    ensures r.min <= r.max
    ensures !FoundValid(es) ==> r == DayRange(DEFAULT_TRANSIT_MIN, DEFAULT_TRANSIT_MAX)
    ensures FoundValid(es) ==> r.max == LargestMax(es)
    ensures FoundValid(es) ==> forall k :: 0 <= k < |es| && HasValidMax(es[k]) ==> MaxOf(es[k]) <= r.max
    ensures FoundValid(es) ==> forall k :: 0 <= k < |es| && HasValidMin(es[k]) ==> r.min <= MinOf(es[k])
    ensures FoundValid(es) && SmallestMin(es) <= LargestMax(es) && SmallestMin(es) < PHP_INT_MAX ==>
      r.min == SmallestMin(es)
    ensures FoundValid(es) && LargestMax(es) < PHP_INT_MAX ==> r.min == Min(SmallestMin(es), LargestMax(es))
  {
    AggregateResult(FoundValid(es), SmallestMin(es), LargestMax(es))
  }

  /**
   * get_transit_time_range($shipping_method_id) as a function of the option:
   * {1, 5} with no methods configured, the method's own range when the id
   * names one, the aggregate otherwise; min <= max in every case.
   */
  function TransitRangeSpec(es: seq<MethodEntry>, methodId: Option<string>): (r: DayRange)
    ensures r.min <= r.max
    ensures es == [] ==> r == DayRange(DEFAULT_TRANSIT_MIN, DEFAULT_TRANSIT_MAX)
    ensures es != [] && methodId.Some? && Truthy(methodId.value) && Lookup(es, methodId.value).Some? ==>
      r == KnownMethodRange(Lookup(es, methodId.value).value)
    ensures es != [] && (methodId.None? || !Truthy(methodId.value) || Lookup(es, methodId.value).None?) ==>
      r == AggregateRange(es)
  {
    if es == [] then DayRange(DEFAULT_TRANSIT_MIN, DEFAULT_TRANSIT_MAX)
    else if methodId.Some? && Truthy(methodId.value) && Lookup(es, methodId.value).Some? then
      KnownMethodRange(Lookup(es, methodId.value).value)
    else AggregateRange(es)
  }

  /**
   * Methods that set only 'min_transit' (no valid 'max_transit' anywhere)
   * leave $overall_max at 0, and the clamp then pulls the minimum down to it:
   * the aggregate is {0, 0}.
   */
  lemma AggregateOnlyMinimums(es: seq<MethodEntry>)
    requires exists k :: 0 <= k < |es| && HasValidMin(es[k])
    requires forall k :: 0 <= k < |es| ==> !HasValidMax(es[k])
    ensures AggregateRange(es) == DayRange(0, 0)
  {
  }

  /** Methods that set only 'max_transit' give {largest max, largest max}. */
  lemma AggregateOnlyMaximums(es: seq<MethodEntry>)
    requires exists k :: 0 <= k < |es| && HasValidMax(es[k])
    requires forall k :: 0 <= k < |es| ==> !HasValidMin(es[k])
    requires LargestMax(es) < PHP_INT_MAX
    ensures AggregateRange(es) == DayRange(LargestMax(es), LargestMax(es))
  {
  }

  /** Two methods {1..3} and {2..7}, no method chosen: the aggregate is {1, 7}. */
  lemma AggregateTwoMethods()
    ensures AggregateRange([
      MethodEntry("A", map["min_transit" := Numeric(1), "max_transit" := Numeric(3)]),
      MethodEntry("B", map["min_transit" := Numeric(2), "max_transit" := Numeric(7)])]) == DayRange(1, 7)
  {
  }

  // ---------------------------------------------------------------------
  // The calculator
  // ---------------------------------------------------------------------

  class Calculator {
    /** $this->settings['general'] */
    const general: GeneralSettings
    /** $this->settings['closed_days'] and ['postage_days'] */
    const calendar: ClosedDays
    /** $this->shipping_settings */
    const shippingSettings: seq<MethodEntry>

    /**
     * Loads the settings; wp_parse_args fills a missing 'store_weekly' with
     * ['sunday'] and missing date lists with [].
     */
    constructor (general: GeneralSettings, storeWeekly: Option<set<string>>, storeSpecific: Option<set<Day>>,
                 postageSpecific: Option<set<Day>>, shipping: seq<MethodEntry>)
      ensures this.general == general && shippingSettings == shipping
      ensures calendar == ClosedDays(storeWeekly.GetOr({"sunday"}), storeSpecific.GetOr({}), postageSpecific.GetOr({}))
    {
      this.general := general;
      calendar := ClosedDays(storeWeekly.GetOr({"sunday"}), storeSpecific.GetOr({}), postageSpecific.GetOr({}));
      shippingSettings := shipping;
    }

    /**
     * get_lead_time_range: product overrides when numeric (one of them
     * standing for both), otherwise the store defaults; max raised to min.
     */
    function LeadTimeRange(product: Option<LeadMeta>): (r: DayRange)
      ensures r.min <= r.max
      ensures product.Some? && IsNumeric(product.value.minMeta) ==>
        r.min == AbsInt(product.value.minMeta) &&
        r.max == (if IsNumeric(product.value.maxMeta) then Max(r.min, AbsInt(product.value.maxMeta)) else r.min)
      ensures product.Some? && !IsNumeric(product.value.minMeta) && IsNumeric(product.value.maxMeta) ==>
        r.min == r.max == AbsInt(product.value.maxMeta)
      ensures product.None? || (!IsNumeric(product.value.minMeta) && !IsNumeric(product.value.maxMeta)) ==>
        r.min == AbsIntOr(general.defaultLeadTimeMin, DEFAULT_LEAD_MIN) &&
        r.max == Max(r.min, AbsIntOr(general.defaultLeadTimeMax, DEFAULT_LEAD_MAX))
    {
      var override: Option<DayRange> :=
        if product.None? then None
        else
          var minMeta, maxMeta := product.value.minMeta, product.value.maxMeta;
          if minMeta != Blank && maxMeta != Blank && IsNumeric(minMeta) && IsNumeric(maxMeta) then
            Some(DayRange(AbsInt(minMeta), AbsInt(maxMeta)))
          else if minMeta != Blank && IsNumeric(minMeta) then
            Some(DayRange(AbsInt(minMeta), AbsInt(minMeta)))
          else if maxMeta != Blank && IsNumeric(maxMeta) then
            Some(DayRange(AbsInt(maxMeta), AbsInt(maxMeta)))
          else None;
      var lead := override.GetOr(DayRange(AbsIntOr(general.defaultLeadTimeMin, DEFAULT_LEAD_MIN),
                                          AbsIntOr(general.defaultLeadTimeMax, DEFAULT_LEAD_MAX)));
      if lead.min > lead.max then DayRange(lead.min, lead.min) else lead
    }

    /** get_transit_time_range, with the aggregate loop over all methods. */
    method TransitTimeRange(methodId: Option<string>) returns (r: DayRange)
      ensures r == TransitRangeSpec(shippingSettings, methodId)
    {
      if |shippingSettings| == 0 {
        return DayRange(DEFAULT_TRANSIT_MIN, DEFAULT_TRANSIT_MAX);
      }
      if methodId.Some? && Truthy(methodId.value) {
        var found := Lookup(shippingSettings, methodId.value);
        if found.Some? {
          return KnownMethodRange(found.value);
        }
      }
      var overallMin: nat := PHP_INT_MAX;
      var overallMax: nat := 0;
      var foundValid := false;
      var i := 0;
      while i < |shippingSettings|
        invariant 0 <= i <= |shippingSettings|
        invariant overallMin == SmallestMin(shippingSettings[..i])
        invariant overallMax == LargestMax(shippingSettings[..i])
        invariant foundValid == FoundValid(shippingSettings[..i])
      {
        var entry := shippingSettings[i];
        assert shippingSettings[..i + 1][..i] == shippingSettings[..i];
        if ValidBound(Get(entry.settings, "min_transit")) {
          overallMin := Min(overallMin, AbsInt(Get(entry.settings, "min_transit")));
          foundValid := true;
        }
        if ValidBound(Get(entry.settings, "max_transit")) {
          overallMax := Max(overallMax, AbsInt(Get(entry.settings, "max_transit")));
          foundValid := true;
        }
        i := i + 1;
      }
      assert shippingSettings[..i] == shippingSettings;
      r := AggregateResult(foundValid, overallMin, overallMax);
    }

    /**
     * get_start_date: today, moved forward past closed days. The cutoff
     * time is not implemented in this version.
     */
    method GetStartDate(now: Day) returns (start: Day)
      requires HasOpenWeekday(calendar)
      ensures IsFirstOpenFrom(calendar, now, start)
    {
      start := now;
      ghost var open := OpenDayAtOrAfter(calendar, now);
      while StoreClosed(calendar, start) || PostageHoliday(calendar, start)
        invariant now <= start <= open
        invariant AllClosed(calendar, now, start)
        decreases open - start
      {
        start := start + 1;
      }
    }

    /**
     * add_working_days: steps a copy of the date forward, counting only open
     * days, then moves on until the date itself is open (which matters only
     * for zero days).
     */
    method AddWorkingDays(date: Day, daysToAdd: nat) returns (r: Day)
      requires HasOpenWeekday(calendar)
      ensures IsWorkingDaysLater(calendar, date, daysToAdd, r)
    {
      r := date;
      var daysAdded := 0;
      ghost var open := OpenDayAfter(calendar, r);
      while daysAdded < daysToAdd
        invariant date <= r < open && !IsClosed(calendar, open)
        invariant daysAdded <= daysToAdd
        invariant OpenCount(calendar, date, r) == daysAdded
        invariant daysAdded == daysToAdd > 0 ==> !IsClosed(calendar, r)
        invariant daysToAdd == 0 ==> r == date
        decreases daysToAdd - daysAdded, open - r
      {
        r := r + 1;
        if !StoreClosed(calendar, r) && !PostageHoliday(calendar, r) {
          daysAdded := daysAdded + 1;
          open := OpenDayAfter(calendar, r);
        }
      }
      ghost var afterCount := r;
      open := OpenDayAtOrAfter(calendar, r);
      while StoreClosed(calendar, r) || PostageHoliday(calendar, r)
        invariant afterCount <= r <= open
        invariant AllClosed(calendar, afterCount, r)
        invariant daysToAdd > 0 ==> r == afterCount
        decreases open - r
      {
        r := r + 1;
      }
    }

    /** The lead + transit + days_to_add totals; min <= max since both ranges are clamped. */
    function TotalDays(product: Option<LeadMeta>, methodId: Option<string>): (t: DayRange)
      ensures t.min <= t.max
    {
      var lead := LeadTimeRange(product);
      var transit := TransitRangeSpec(shippingSettings, methodId);
      var extra := AbsIntOr(general.daysToAdd, 0);
      DayRange(lead.min + transit.min + extra, lead.max + transit.max + extra)
    }

    /**
     * calculate_delivery_range: the earliest date is the start date plus the
     * minimum total in working days; the latest continues from the earliest
     * by the difference, which lands where counting the maximum total from
     * the start date would.
     */
    method CalculateDeliveryRange(now: Day, product: Option<LeadMeta>, methodId: Option<string>)
      returns (r: DeliveryRange)
      requires HasOpenWeekday(calendar)
      ensures now <= r.start <= r.end
      ensures !IsClosed(calendar, r.start) && !IsClosed(calendar, r.end)
      ensures exists start :: (IsFirstOpenFrom(calendar, now, start) &&
        IsWorkingDaysLater(calendar, start, TotalDays(product, methodId).min, r.start) &&
        IsWorkingDaysLater(calendar, start, TotalDays(product, methodId).max, r.end))
      ensures TotalDays(product, methodId).min == TotalDays(product, methodId).max ==> r.start == r.end
    {
      var startDate := GetStartDate(now);
      var leadTime := LeadTimeRange(product);
      var transitTime := TransitTimeRange(methodId);
      var daysToAdd := AbsIntOr(general.daysToAdd, 0);
      var totalMin := leadTime.min + transitTime.min + daysToAdd;
      var totalMax := leadTime.max + transitTime.max + daysToAdd;
      var earliest := AddWorkingDays(startDate, totalMin);
      var daysDiff := Max(0, totalMax - totalMin);
      var latest := AddWorkingDays(earliest, daysDiff);
      WorkingDaysChain(calendar, startDate, totalMin, daysDiff, earliest, latest);
      if totalMin == totalMax {
        OpenDayIsFirstOpen(calendar, earliest);
        WorkingDaysLaterUnique(calendar, earliest, 0, earliest, latest);
      }
      r := DeliveryRange(earliest, latest);
    }
  }

  // ---------------------------------------------------------------------
  // Worked examples (Sundays closed; day 4 is Monday 1970-01-05)
  // ---------------------------------------------------------------------

  /** Monday before cutoff, 3 working days: Tue, Wed, Thu, so Thursday (day 7). */
  lemma MondayPlusThreeIsThursday(r: Day)
    requires IsWorkingDaysLater(ClosedDays({"sunday"}, {}, {}), 4, 3, r)
    ensures r == 7
  {
    var cal := ClosedDays({"sunday"}, {}, {});
    assert OpenCount(cal, 4, 7) == 3 by {
      assert WeekdayName(5) == "tuesday" && WeekdayName(6) == "wednesday" && WeekdayName(7) == "thursday";
      assert OpenCount(cal, 4, 5) == 1;
      assert OpenCount(cal, 4, 6) == 2;
    }
    NthOpenUnique(cal, 4, 3, r, 7);
  }

  /** Friday plus 2 working days: Saturday counts, Sunday does not, so Monday (day 4). */
  lemma FridayPlusTwoIsMonday(r: Day)
    requires IsWorkingDaysLater(ClosedDays({"sunday"}, {}, {}), 1, 2, r)
    ensures r == 4
  {
    var cal := ClosedDays({"sunday"}, {}, {});
    assert OpenCount(cal, 1, 4) == 2 by {
      assert WeekdayName(2) == "saturday" && WeekdayName(3) == "sunday" && WeekdayName(4) == "monday";
      assert OpenCount(cal, 1, 2) == 1;
      assert OpenCount(cal, 1, 3) == 1;
    }
    NthOpenUnique(cal, 1, 2, r, 4);
  }

  /** A postage holiday on the Thursday that would be delivery day pushes it to Friday (day 8). */
  lemma HolidayOnDeliveryDayIsSkipped(r: Day)
    requires IsWorkingDaysLater(ClosedDays({"sunday"}, {}, {7}), 4, 3, r)
    ensures r == 8
  {
    var cal := ClosedDays({"sunday"}, {}, {7});
    assert OpenCount(cal, 4, 8) == 3 by {
      assert WeekdayName(5) == "tuesday" && WeekdayName(6) == "wednesday" && WeekdayName(8) == "friday";
      assert OpenCount(cal, 4, 5) == 1;
      assert OpenCount(cal, 4, 6) == 2;
      assert OpenCount(cal, 4, 7) == 2;
    }
    NthOpenUnique(cal, 4, 3, r, 8);
  }
}
