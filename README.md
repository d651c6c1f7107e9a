# Delivery-date estimation engine (EDD WooCommerce plugin), modelled in Dafny

The plugin estimates when an order arrives. It takes a lead time (days to
prepare the order), a transit time (days the carrier needs) and a calendar of
closed days, and turns them into an earliest and a latest delivery date. Those
dates are then rendered as a display string. The repository holds three
successive versions of the engine. Each one is modelled as its own module:

- `WcEddCalculator` (`includes/class-wc-edd-calculator.php`, the newest version)
  - A class whose settings are loaded once by the constructor.
  - Lead-time and transit-time resolvers with per-product overrides, defaults, min ≤ max clamps, and an aggregate over all shipping methods.
  - A working-day advancer that counts only open days and never stops on a closed day.
  - An estimator that counts the latest date on from the earliest one.
- `EdDatesCkCalculator` (`includes/class-ed-dates-ck-calculator.php`, the older version)
  - An order cutoff time decides whether counting starts today or tomorrow.
  - The business-day advancer has no final skip.
  - The earliest and the latest dates are both counted from the start date.
  - The totals are the lead time plus the min and the max of a list of transit times.
- `DeliveryDateCalculator` (`includes/class-delivery-date-calculator.php`, the oldest version)
  - Adds plain calendar days, then moves forward while the date is a listed closed date.
  - Its range format never collapses.

Supporting modules:

- `ProductMeta`: the per-field lead-time resolver of `WC_EDD_Product_Meta`.
- `WcEddBlocks`: the text the delivery block renders.
- `EdDatesCk`: the checkout fold that keeps the latest date across the cart.
- `Php`: the PHP built-ins the code relies on: `intval`, `absint`, `??`, `isset`, `is_numeric`, `trim`, string truthiness and byte-wise string comparison.
- `Calendar`:
  - days and weekday names;
  - the closed-day calendar;
  - `OpenCount`, the number of open days in a half-open interval `(a, b]`;
  - the theory of "n working days later" that the loops are proved against.
- `Clock`: how "H:i" strings compare.
- `ShippingMethods`: the `wc_edd_shipping_methods` option.

### Representation

- A date is an integer day number counted from 1970-01-01, a Thursday. Its weekday name is derived modulo 7, and a 'Y-m-d' string is the day it names.
- "Now" is a parameter: a day number, plus the "H:i" string in the older version.
- Formatted dates come from a function parameter `fmt(format, day)`. It stands for `date_i18n` and `DateTime::format`.
- An option or meta value is `Absent` (unset or null), `Blank` (the empty string), `Numeric(n)`, or `Text(lead)`. `Text(lead)` is a non-numeric string whose leading digits `intval` reads as `lead`.

### Termination

The skip-forward loops of the newer two versions have no cap. The model requires `HasOpenWeekday`, meaning at least one weekday is not closed every week. Holiday sets are finite, so under that requirement an open day always exists. The source loops forever when every weekday is closed.

The oldest version's loop only skips listed dates, so it always ends.

### Where the code differs from its own description

Each point below follows the code.

- **Newest aggregate, only minimums configured.** If methods set only `min_transit`, the aggregate transit range is {0, 0}, not {min, min}. `$overall_max` stays 0, and line 195 pulls the minimum down to it (`WcEddCalculator.AggregateOnlyMinimums`). The comment on line 195 names this outcome and marks it for checking. The comment on line 196 says instead that the max becomes the min, but line 196 runs after line 195 and can then never change anything. The model keeps the code's {0, 0}.
- **Newest version, no cutoff.** It has no cutoff time. Its start date is always today, moved past closed days.
- **Older version, negative totals.** `absint` turns a negative total positive, so the earliest date can fall after the latest one (`EdDatesCkCalculator.NegativeTotalsCrossOver`).
- **Oldest version, no reordering.** Neither the lead time nor the transit time is reordered, so its minimum date can fall after its maximum date (`DeliveryDateCalculator.InvertedRangeFromUnorderedMeta`).

## Model

| member | source | states |
|---|---|---|
| Php.IntVal | includes/class-ed-dates-ck-calculator.php:102 | `intval` keeps a number, and reads null and '' as 0 |
| Php.AbsIntOr | includes/class-wc-edd-calculator.php:139-140 | `absint($v ?? default)`: a missing value gives the default, and a number gives its absolute value |
| Php.Trim | includes/class-wc-edd-blocks.php:241 | `trim`: the result is a slice of the input, neither end of it is whitespace, and everything cut from either side is whitespace |
| Php.StrLess | includes/class-ed-dates-ck-calculator.php:69 | PHP's `<` on two non-numeric strings: byte-wise, and a proper prefix is smaller |
| Php.StrLessTrichotomy | includes/class-ed-dates-ck-calculator.php:69 | that order is strict and total: it never holds both ways, and for two different strings it holds one way or the other |
| Php.StrGreater | includes/class-ed-dates-ck-calculator.php:69 | `$current_time > $cutoff_time` is the same order with its arguments swapped |
| ShippingMethods.Lookup | includes/class-wc-edd-calculator.php:165-166 | `isset($settings[$id])`: None exactly when no method has the id; otherwise that method's settings |
| Calendar.OpenDayAtOrAfter | includes/class-wc-edd-calculator.php:105-107 | with one weekday open, an open day exists at or after any day, so the skip loops end |
| Calendar.NthOpenUnique | includes/class-wc-edd-calculator.php:209-215 | counting n open days from a date determines the day reached |
| Calendar.WorkingDaysLaterUnique | includes/class-wc-edd-calculator.php:205-222 | "n working days later, never on a closed day" has exactly one result |
| Calendar.NthOpenMonotone | includes/class-ed-dates-ck-calculator.php:46-47 | counting more open days from the same date never gives an earlier day |
| Calendar.WorkingDaysChain | includes/class-wc-edd-calculator.php:81-84 | counting a working days and then b more from the result lands where a + b from the start does, when the start is open or a > 0 |
| Calendar.StoreClosed | includes/class-wc-edd-calculator.php:227-248 | `is_store_closed`: the day's lower-case weekday name is in the weekly list, or the day is in the specific-date list |
| Calendar.StoreClosedWeekly | includes/class-wc-edd-calculator.php:229-233 | apart from specific dates, whether the store is closed repeats every seven days |
| Calendar.PostageHoliday | includes/class-wc-edd-calculator.php:253-262 | `is_postage_holiday`: the day is in the postage date list; the weekday plays no part |
| Calendar.IsClosed | includes/class-wc-edd-calculator.php:212-217 | a day is skipped when the store is closed or it is a postage holiday |
| Calendar.WorkingDaysLaterSettled | includes/class-wc-edd-calculator.php:216-219 | a working-day result is open and not before its start, and strictly later when n > 0. It is settled: counting 0 working days from it, which is the final skip alone, gives back that same day |
| Calendar.OpenCountNoClosures | includes/class-wc-edd-calculator.php:209-215 | with nothing closed, every day counts, so working days equal calendar days |
| WcEddCalculator.TransitBound | includes/class-wc-edd-calculator.php:167-168 | a known method's bound is absint of the setting when it is set and not '', else the default (1 or 5) |
| WcEddCalculator.KnownMethodRange | includes/class-wc-edd-calculator.php:165-172 | a known method's range: defaulted bounds, with max raised to min |
| WcEddCalculator.SmallestMin | includes/class-wc-edd-calculator.php:175-183 | the loop's `$overall_min` is at most PHP_INT_MAX and at most every valid minimum; it is PHP_INT_MAX or one of them |
| WcEddCalculator.LargestMax | includes/class-wc-edd-calculator.php:176-187 | the loop's `$overall_max` is at least every valid maximum, and is 0 or one of them |
| WcEddCalculator.FoundValid | includes/class-wc-edd-calculator.php:177-187 | `$found_valid` holds exactly when some method has a valid min_transit or max_transit |
| WcEddCalculator.AggregateResult | includes/class-wc-edd-calculator.php:190-198 | the final steps of the aggregate: {1,5} when nothing was found. Otherwise the max is the overall max, and the min is the smaller of the overall min and max, except that an untouched sentinel min becomes 1; min ≤ max in every case |
| WcEddCalculator.AggregateRange | includes/class-wc-edd-calculator.php:190-198 | the aggregate has min ≤ max, and is {1,5} when nothing is valid. Otherwise its max is the largest valid maximum and its min is at most every valid minimum. Its min is the smaller of the smallest minimum and the largest maximum whenever some maximum was found. In particular it equals the smallest minimum when that is below the largest maximum |
| WcEddCalculator.TransitRangeSpec | includes/class-wc-edd-calculator.php:157-199 | transit range: {1,5} with no methods; the method's own range for a known id; otherwise the aggregate. Always min ≤ max |
| WcEddCalculator.AggregateOnlyMinimums | includes/class-wc-edd-calculator.php:195-198 | with valid minimums but no valid maximum, the aggregate is {0, 0} |
| WcEddCalculator.AggregateOnlyMaximums | includes/class-wc-edd-calculator.php:195-198 | with valid maximums but no valid minimum, the aggregate is {largest max, largest max} |
| WcEddCalculator.AggregateTwoMethods | includes/class-wc-edd-calculator.php:175-198 | methods {1..3} and {2..7} aggregate to {1, 7} |
| WcEddCalculator.Calculator.constructor | includes/class-wc-edd-calculator.php:34-60 | the settings loaded; a missing weekly list becomes ['sunday'] and missing date lists become [] |
| WcEddCalculator.Calculator.LeadTimeRange | includes/class-wc-edd-calculator.php:116-149 | numeric product overrides win; only-min sets max := min and only-max sets min := max; otherwise the defaults apply (1 and 3 when unset). Always min ≤ max |
| WcEddCalculator.Calculator.TransitTimeRange | includes/class-wc-edd-calculator.php:157-199 | the method, with its aggregate loop, returns TransitRangeSpec |
| WcEddCalculator.Calculator.GetStartDate | includes/class-wc-edd-calculator.php:100-110 | the start date is the first open day at or after today |
| WcEddCalculator.Calculator.AddWorkingDays | includes/class-wc-edd-calculator.php:205-222 | only open days (not store-closed, not a postage holiday) are counted, and the result is never closed. With 0 days it is the first open day at or after the date; otherwise it is the n-th open day after it |
| WcEddCalculator.Calculator.TotalDays | includes/class-wc-edd-calculator.php:74-78 | lead + transit + days_to_add totals have min ≤ max |
| WcEddCalculator.Calculator.CalculateDeliveryRange | includes/class-wc-edd-calculator.php:69-94 | now ≤ start ≤ end, and both dates are open. Start is the min total in working days from the start date. End is the max total in working days from the start date, although the code counts it on from the earliest date by the difference. Equal totals give one date |
| WcEddCalculator.MondayPlusThreeIsThursday | includes/class-wc-edd-calculator.php:205-222 | Sundays closed: Monday plus 3 working days is Thursday |
| WcEddCalculator.FridayPlusTwoIsMonday | includes/class-wc-edd-calculator.php:205-222 | Sundays closed: Friday plus 2 working days is Monday |
| WcEddCalculator.HolidayOnDeliveryDayIsSkipped | includes/class-wc-edd-calculator.php:212-219 | a postage holiday on the would-be delivery day moves it to the next open day |
| EdDatesCkCalculator.WeeklyClosed | includes/class-ed-dates-ck-calculator.php:170-173 | the weekly closed days are the stored array, or ['sunday'] when unset or not an array |
| EdDatesCkCalculator.HolidayList | includes/class-ed-dates-ck-calculator.php:181-195 | a holiday list is the stored array, or empty when unset or not an array |
| EdDatesCkCalculator.IsClosedDay | includes/class-ed-dates-ck-calculator.php:163-205 | false for a non-DateTime. Otherwise true exactly when the weekday is closed or the date is a shop or postage holiday |
| EdDatesCkCalculator.BaseDay | includes/class-ed-dates-ck-calculator.php:63-71 | tomorrow exactly when the "H:i" time now is greater as a string than the cutoff (default "16:00"), else today |
| EdDatesCkCalculator.GetStartDate | includes/class-ed-dates-ck-calculator.php:62-79 | the start date is the first open day at or after BaseDay |
| EdDatesCkCalculator.GetLeadTime | includes/class-ed-dates-ck-calculator.php:121-135 | intval of the product meta when it is not '', else the default passed in |
| EdDatesCkCalculator.CalculateTotalDays | includes/class-ed-dates-ck-calculator.php:84-116 | None exactly for an empty transit list. Otherwise lead + min over the transits (starting from PHP_INT_MAX) and lead + max over the transits (starting from 0) |
| EdDatesCkCalculator.TotalsOrdered | includes/class-ed-dates-ck-calculator.php:99-111 | a non-empty transit list gives totals with min ≤ max |
| EdDatesCkCalculator.TotalsNonNegative | includes/class-ed-dates-ck-calculator.php:99-111 | with no negative lead or transit time, 0 ≤ min ≤ max |
| EdDatesCkCalculator.AddBusinessDays | includes/class-ed-dates-ck-calculator.php:140-158 | counts absint(days) open days. With 0 days the date is returned unchanged, even a closed one. Otherwise the result is strictly later and open |
| EdDatesCkCalculator.CalculateDeliveryRange | includes/class-ed-dates-ck-calculator.php:37-57 | None exactly when there are no totals. Both dates are counted independently from the same start date and both are open; they are in order when no time is negative |
| EdDatesCkCalculator.IndependentRangeOrdered | includes/class-ed-dates-ck-calculator.php:46-47 | counting fewer business days from the same start never gives a later date |
| EdDatesCkCalculator.NegativeTotalsCrossOver | includes/class-ed-dates-ck-calculator.php:108-111 | lead -5 and transits -3 and 2 give totals -8 and -3, so the earliest date falls 5 days after the latest |
| Clock.HourMinuteOrder | includes/class-ed-dates-ck-calculator.php:63-69 | on zero-padded "H:i" strings, byte-wise order is the order of minutes since midnight |
| Clock.PastCutoffIsLater | includes/class-ed-dates-ck-calculator.php:69 | the cutoff test holds exactly when the time now is later on the clock than the cutoff |
| Clock.UnpaddedCutoffNotPassed | includes/class-ed-dates-ck-calculator.php:64-69 | a cutoff stored as "9:00" is not passed at 10:00 |
| ProductMeta.DefaultBound | admin/class-product-meta.php:109-118 | a default is (int) of the setting when set, else 0 |
| ProductMeta.Bound | admin/class-product-meta.php:96-102 | a bound is (int) of the meta when it is not '', else the default |
| ProductMeta.GetProductLeadTime | admin/class-product-meta.php:85-122 | each field comes from the product meta when set, else from its own default (0 when unset) |
| DeliveryDateCalculator.GetShippingTransitTimes | includes/class-delivery-date-calculator.php:123-141 | {0,0} for a falsy or unknown method. Otherwise (int) of 'min' and 'max', each 0 when unset, with no clamp |
| DeliveryDateCalculator.TransitTimesNotClamped | includes/class-delivery-date-calculator.php:134-140 | a method with min 5 and max 2 yields {5, 2} |
| DeliveryDateCalculator.FirstOutsideMonotone | includes/class-delivery-date-calculator.php:149-169 | adjusting a later date never gives an earlier result |
| DeliveryDateCalculator.ClosedSet | includes/class-delivery-date-calculator.php:150-161 | a day is closed exactly when it is in the store list or the postage list; an unset list contributes nothing |
| DeliveryDateCalculator.AdjustForClosedDays | includes/class-delivery-date-calculator.php:149-169 | the result is the first day at or after the date that is not in the union of store and postage closed dates |
| DeliveryDateCalculator.AdjustForClosedTimestamps | includes/class-delivery-date-calculator.php:161-168 | as written, on timestamps: it steps by whole days through listed stamps to the first stamp not listed, and never moves an unlisted stamp |
| DeliveryDateCalculator.TimeOfDayDefeatsClosedDays | includes/class-delivery-date-calculator.php:153-164 | a timestamp that is not midnight is never one of the midnight stamps of closed dates |
| DeliveryDateCalculator.CalculateDeliveryDates | includes/class-delivery-date-calculator.php:91-115 | min date = now + lead.min + transit.min calendar days and max date likewise, each adjusted past closed dates. Neither is closed, and they are in order when the sums are |
| DeliveryDateCalculator.InvertedRangeFromUnorderedMeta | includes/class-delivery-date-calculator.php:101-109 | product lead times 5 and 2 with no method give a min date after the max date |
| DeliveryDateCalculator.FormatDeliveryDate | includes/class-delivery-date-calculator.php:177-193 | 'range' (the default) gives "min - max"; any other format gives the max date alone; the default date format is 'F j, Y' |
| DeliveryDateCalculator.RangeNeverCollapses | includes/class-delivery-date-calculator.php:183-189 | equal dates still print as "X - X" |
| WcEddBlocks.DisplayString | includes/class-wc-edd-blocks.php:226-238 | in 'range' format the result is just the end date exactly when start and end format alike, else "start - end". Any other format gives "by end". It always ends with the end date |
| WcEddBlocks.FullDisplayText | includes/class-wc-edd-blocks.php:241 | the trimmed custom text plus a space is prefixed unless it is '' or '0'. The date part is always the suffix |
| WcEddBlocks.ZeroCustomTextAddsNothing | includes/class-wc-edd-blocks.php:241 | custom text " 0 " adds no prefix |
| WcEddBlocks.BlockText | includes/class-wc-edd-blocks.php:202-270 | '' for an empty range. displayType 'text' (the default) gives the prefixed text; any other type gives the date part alone. The text always ends with the formatted end date |
| WcEddBlocks.DefaultsSingleDay | includes/class-wc-edd-blocks.php:207-241 | with nothing configured, a one-day range renders as "Estimated Delivery: X" |
| WcEddBlocks.LatestDateOnly | includes/class-wc-edd-blocks.php:235-238 | the 'latest' format with displayType 'dateOnly' renders "by X" |
| EdDatesCk.Qualifies | includes/class-ed-dates-ck.php:159-171 | an item is skipped unless it has a 'product_id', its estimate is truthy, and the estimate parses as 'l, F j, Y' |
| EdDatesCk.LatestCartDeliveryDate | includes/class-ed-dates-ck.php:145-192 | None for a missing or empty cart, or one with no qualifying item. Otherwise the maximum over qualifying items, reached first by an item that no earlier item equals. An item qualifies when it has a product id and a non-empty estimate that parses |

## Left out

- Reading options and meta (`get_option`, `get_post_meta`, `WC_Product::get_meta`): their results are parameters or class fields.
- The clock and time zone (`DateTime('now')`, `wp_timezone`, `current_time`): "now" is a parameter.
- `date_i18n`, `DateTime::format`, `DateTime::createFromFormat` and translation (`__`): formatted dates and the checkout parse are function parameters.
- Block markup, `esc_html`, AJAX handlers, hooks, singletons (`get_instance`) and the product lookup at the start of `render_delivery_block`: these are I/O.
- `calculate_estimated_delivery` in the older calculator: it passes the whole min/max array to `add_business_days`, where `absint` turns it into 1. The checkout fold takes the per-item estimate it produces as a parameter.
- `get_transit_times`: it is called by the older calculator but defined nowhere in it. Its result is an input list.
- The `$lead_time === false` branch of `calculate_total_days`: `get_lead_time` returns false only from a catch block.
- The exception paths that return `[]` or `false`: no modelled step throws.
- WcEddCalculator.Calculator.CalculateDeliveryRange: it never returns the empty array, which the source returns only on an exception.
- WcEddCalculator.Calculator.AddWorkingDays: the date is a value, so "works on a copy" holds by construction; the in-place `DateTime::modify` on a clone is not modelled.
- WcEddCalculator.Calculator.TotalDays: integers are unbounded. A sum past PHP_INT_MAX, which PHP turns into a float, is not modelled.
- Php.IntVal: `intval` saturation at PHP_INT_MAX is not modelled.
- Dates stored as strings that name no day are not modelled. Stored dates are sets of days, so malformed entries, and the strict versus loose `in_array` comparison, do not arise.
- DeliveryDateCalculator.CalculateDeliveryDates: a negative sum is treated as moving back that many days, which is what `modify('+-3 days')` does.
- DeliveryDateCalculator.CalculateDeliveryDates: it uses the day-granularity adjustment; the timestamp comparison of the source is modelled separately (see Findings).
- The `HasOpenWeekday` precondition on the newer versions' skip loops: the source loops forever when every weekday is closed, and that non-termination is not modelled.

## Findings

| source | as written | input that shows it | evidently intended | confidence | as-written member | corrected member |
|---|---|---|---|---|---|---|
| includes/class-delivery-date-calculator.php:164 | `adjust_for_closed_days` looks the date's full timestamp, time of day included, up among the `strtotime` values of the closed dates. Those are midnight timestamps | store_closed_days "1970-01-02", time now 1970-01-02 10:30 UTC, no lead or transit time: the date stays on the closed day | move past every listed closed date, comparing days | high, not executed | DeliveryDateCalculator.AdjustForClosedTimestamps, DeliveryDateCalculator.TimeOfDayDefeatsClosedDays | DeliveryDateCalculator.AdjustForClosedDays |
