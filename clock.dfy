/**
 * Times of day as the older calculator compares them: current_time('H:i')
 * yields a zero-padded "HH:MM" string, and the cutoff check compares two
 * such strings with PHP's byte-wise string order.
 */
module Clock {
  import opened Php

  function Digit(d: int): (c: char)
    requires 0 <= d < 10
    ensures '0' <= c <= '9' && c as int - '0' as int == d
  {
    ('0' as int + d) as char
  }

  /** The 'H:i' rendering of hour h and minute m. */
  function HourMinute(h: int, m: int): (s: string)
    requires 0 <= h < 24 && 0 <= m < 60
    ensures |s| == 5 && s[2] == ':'
  {
    [Digit(h / 10), Digit(h % 10), ':', Digit(m / 10), Digit(m % 10)]
  }

  /** Minutes since midnight. */
  function MinuteOfDay(h: int, m: int): int {
    h * 60 + m
  }

  /** Two digits compared as a pair order like the two-digit number they spell. */
  lemma TwoDigitOrder(a: int, b: int)
    requires 0 <= a < 100 && 0 <= b < 100
    ensures a < b <==> (a / 10 < b / 10 || (a / 10 == b / 10 && a % 10 < b % 10))
  {
  }

  /** Byte-wise order on equal-length strings whose first bytes agree is the order of the rest. */
  lemma StrLessSameHead(a: string, b: string)
    requires a != [] && b != [] && a[0] == b[0]
    ensures StrLess(a, b) <==> StrLess(a[1..], b[1..])
  {
  }

  /**
   * For two well-formed 'H:i' strings, the string comparison the cutoff rule
   * uses agrees with the order of the clock times.
   */
  lemma HourMinuteOrder(h1: int, m1: int, h2: int, m2: int)
    requires 0 <= h1 < 24 && 0 <= m1 < 60 && 0 <= h2 < 24 && 0 <= m2 < 60
    ensures StrLess(HourMinute(h1, m1), HourMinute(h2, m2)) <==> MinuteOfDay(h1, m1) < MinuteOfDay(h2, m2)
  {
    var a, b := HourMinute(h1, m1), HourMinute(h2, m2);
    TwoDigitOrder(h1, h2);
    TwoDigitOrder(m1, m2);
    if a[0] == b[0] {
      StrLessSameHead(a, b);
      if a[1] == b[1] {
        StrLessSameHead(a[1..], b[1..]);
        StrLessSameHead(a[2..], b[2..]);
        assert a[3..] == [Digit(m1 / 10), Digit(m1 % 10)] && b[3..] == [Digit(m2 / 10), Digit(m2 % 10)];
        if a[3] == b[3] {
          StrLessSameHead(a[3..], b[3..]);
          assert a[4..] == [Digit(m1 % 10)] && b[4..] == [Digit(m2 % 10)];
        }
      }
    }
  }

  /** Hence the cutoff is passed exactly when the time now is later on the clock. */
  lemma PastCutoffIsLater(h: int, m: int, ch: int, cm: int)
    requires 0 <= h < 24 && 0 <= m < 60 && 0 <= ch < 24 && 0 <= cm < 60
    ensures StrGreater(HourMinute(h, m), HourMinute(ch, cm)) <==> MinuteOfDay(ch, cm) < MinuteOfDay(h, m)
  {
    HourMinuteOrder(ch, cm, h, m);
  }

  /**
   * A cutoff stored without its leading zero is compared as text: at 10:00
   * the time now is not past "9:00".
   */
  lemma UnpaddedCutoffNotPassed()
    ensures !StrGreater(HourMinute(10, 0), "9:00")
  {
  }
}
