/**
 * The text the delivery block renders (render_delivery_block in
 * includes/class-wc-edd-blocks.php): the formatted range or "by" date,
 * optionally prefixed with the store's custom text. The markup around the
 * text is not modelled.
 */
module WcEddBlocks {
  import opened Php
  import opened Calendar

  /** The 'general' entries of 'wc_edd_settings' the renderer reads; None when the key is missing or null. */
  datatype DisplaySettings = DisplaySettings(
    displayFormat: Option<string>,
    dateFormat: Option<string>,
    customText: Option<string>)

  const DEFAULT_DISPLAY_FORMAT: string := "range"
  const DEFAULT_DATE_FORMAT: string := "F j, Y"
  const DEFAULT_CUSTOM_TEXT: string := "Estimated Delivery:"
  const DEFAULT_DISPLAY_TYPE: string := "text"

  predicate EndsWith(s: string, suffix: string) {
    |suffix| <= |s| && s[|s| - |suffix|..] == suffix
  }

  /**
   * The date part: in 'range' format the end date alone when both dates
   * format alike, "start - end" otherwise; any other format gives "by end".
   */
  function DisplayString(displayFormat: string, start: string, end: string): (s: string)
    ensures EndsWith(s, end)
    ensures displayFormat == DEFAULT_DISPLAY_FORMAT ==> (s == end <==> start == end)
    ensures displayFormat == DEFAULT_DISPLAY_FORMAT && start != end ==> s == start + " - " + end
    ensures displayFormat != DEFAULT_DISPLAY_FORMAT ==> s == "by " + end
  {
    if displayFormat == DEFAULT_DISPLAY_FORMAT then
      if start == end then end else start + " - " + end
    else "by " + end
  }

  /**
   * The custom text, trimmed, and one space in front of the date part when
   * the trimmed text is not empty in PHP's sense ('' and '0' are empty).
   */
  function FullDisplayText(customText: string, display: string): (s: string)
    ensures EndsWith(s, display)
    ensures Truthy(Trim(customText)) ==> s == Trim(customText) + " " + display
    ensures !Truthy(Trim(customText)) ==> s == display
  {
    var text := Trim(customText);
    if Truthy(text) then text + " " + display else display
  }

  /** A custom text of only whitespace around "0" adds no prefix. */
  lemma ZeroCustomTextAddsNothing(display: string)
    ensures FullDisplayText(" 0 ", display) == display
  {
    assert TrimLeft(" 0 ") == "0 ";
    assert TrimRight("0 ") == "0";
  }

  /**
   * The text inside the block: '' for an empty range (None); with
   * displayType 'text' (the default) the prefixed string, with any other
   * display type the date part alone. Dates are formatted by fmt with the
   * stored date format.
   */
  function BlockText(range: Option<DeliveryRange>, settings: DisplaySettings, displayType: Option<string>,
                     fmt: (string, Day) -> string): (r: string)
    ensures range.None? ==> r == ""
    ensures range.Some? ==>
      var dateFormat := settings.dateFormat.GetOr(DEFAULT_DATE_FORMAT);
      var display := DisplayString(settings.displayFormat.GetOr(DEFAULT_DISPLAY_FORMAT),
                                   fmt(dateFormat, range.value.start), fmt(dateFormat, range.value.end));
      && EndsWith(r, fmt(dateFormat, range.value.end))
      && (displayType.GetOr(DEFAULT_DISPLAY_TYPE) == DEFAULT_DISPLAY_TYPE ==>
            r == FullDisplayText(settings.customText.GetOr(DEFAULT_CUSTOM_TEXT), display))
      && (displayType.GetOr(DEFAULT_DISPLAY_TYPE) != DEFAULT_DISPLAY_TYPE ==> r == display)
  {
    match range
    case None => ""
    case Some(dates) =>
      var dateFormat := settings.dateFormat.GetOr(DEFAULT_DATE_FORMAT);
      var formattedStart := fmt(dateFormat, dates.start);
      var formattedEnd := fmt(dateFormat, dates.end);
      var display := DisplayString(settings.displayFormat.GetOr(DEFAULT_DISPLAY_FORMAT), formattedStart, formattedEnd);
      var full := FullDisplayText(settings.customText.GetOr(DEFAULT_CUSTOM_TEXT), display);
      EndsWithTransitive(full, display, formattedEnd);
      if displayType.GetOr(DEFAULT_DISPLAY_TYPE) == DEFAULT_DISPLAY_TYPE then full else display
  }

  lemma EndsWithTransitive(a: string, b: string, c: string)
    requires EndsWith(a, b) && EndsWith(b, c)
    ensures EndsWith(a, c)
  {
  }

  /**
   * With nothing configured, one day from start to end renders as
   * "Estimated Delivery: X" for the formatted day X.
   */
  lemma DefaultsSingleDay(d: Day, fmt: (string, Day) -> string)
    ensures BlockText(Some(DeliveryRange(d, d)), DisplaySettings(None, None, None), None, fmt)
      == "Estimated Delivery: " + fmt("F j, Y", d)
  {
    var text := DEFAULT_CUSTOM_TEXT;
    assert TrimLeft(text) == text;
    assert TrimRight(text) == text;
  }

  /** The 'latest' format with displayType 'dateOnly' renders "by X" only. */
  lemma LatestDateOnly(dates: DeliveryRange, custom: Option<string>, fmt: (string, Day) -> string)
    ensures BlockText(Some(dates), DisplaySettings(Some("latest"), Some("Y-m-d"), custom), Some("dateOnly"), fmt)
      == "by " + fmt("Y-m-d", dates.end)
  {
  }
}
