/**
 * The `HH:MM` to 12-hour conversion that the schedule overview and the
 * schedule preview both define, word for word, as `formatTime`.
 */
module Clock {
  import opened Text

  /** JavaScript's `%`: the remainder takes the sign of the dividend. */
  function JsRem(a: int, b: int): (r: int)
    requires b > 0
    ensures a >= 0 ==> 0 <= r < b
    ensures a < 0 ==> -b < r <= 0
  {
    if a >= 0 then a % b else -((-a) % b)
  }

  /** The hour a 12-hour clock shows for a 24-hour hour: `hour % 12 || 12`. */
  function Hour12(h: int): (r: int)
    requires 0 <= h
    ensures 1 <= r <= 12
  {
    if h % 12 == 0 then 12 else h % 12
  }

  /** Reading a 12-hour clock back: the partner of `Hour12`. */
  function To24(h12: int, pm: bool): int {
    h12 % 12 + (if pm then 12 else 0)
  }

  /** Every hour of the day survives the trip to the 12-hour clock and back. */
  lemma Hour12RoundTrip(h: int)
    requires 0 <= h < 24
    ensures To24(Hour12(h), h >= 12) == h
  {
  }

  /**
   * `formatTime(timeString)`: the text before the first ':' is read with
   * `parseInt`, the text after it is copied as it is (JavaScript prints a
   * missing part as "undefined"); an unreadable hour shows as 12 AM, since
   * NaN is neither at least 12 nor truthy.
   */
  function FormatTime(time: string): (r: string)
  {
    var parts := Split(time, ':');
    var minutes := if |parts| >= 2 then parts[1] else "undefined";
    var hour := ParseInt(parts[0]);
    var pm := hour.Some? && hour.value >= 12;
    var display := if hour.None? || JsRem(hour.value, 12) == 0 then 12 else JsRem(hour.value, 12);
    IntToString(display) + ":" + minutes + " " + (if pm then "PM" else "AM")
  }

  /**
   * On `H:MM` text whose hour is a digit string of value 0..23, the result is
   * the 12-hour hour, the minutes copied verbatim, and PM exactly from 12:00.
   */
  lemma FormatTimeOfClockText(hh: string, mm: string, h: nat)
    requires hh != [] && AllDigits(hh) && DecimalValue(hh) == h && h < 24
    requires ':' !in mm
    ensures FormatTime(hh + ":" + mm) == NatToString(Hour12(h)) + ":" + mm + " " + (if h >= 12 then "PM" else "AM")
  {
    assert ':' !in hh by {
      forall i | 0 <= i < |hh| ensures hh[i] != ':' { assert IsDigit(hh[i]); }
    }
    SplitAtFirst(hh, ':', mm);
    SplitNoSeparator(mm, ':');
    assert Split(hh + ":" + mm, ':') == [hh, mm];
  }
}
