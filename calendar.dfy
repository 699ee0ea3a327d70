/**
 * Civil-calendar arithmetic behind the portal's `Date` calls: the length of a
 * month as `new Date(year, month + 1, 0).getDate()` computes it, the weekday
 * of a day as `getDay()` reports it, the order of two days, and the
 * `YYYY-MM-DD` text the booking calendar writes (the extended complete
 * calendar-date form of ISO 8601, section 4.1.2.2 of ISO 8601:2004).
 */
module Calendar {
  import opened Text

  /** A civil date; `month` counts from 0 (January) as JavaScript's `getMonth()` does. */
  datatype Date = Date(year: int, month: int, day: int)

  predicate IsLeapYear(y: int) {
    y % 4 == 0 && (y % 100 != 0 || y % 400 == 0)
  }

  /**
   * The number of days of month `month` of `year`, after JavaScript's
   * normalisation of an out-of-range month (12 is January of the next year,
   * -1 December of the previous one).
   */
  function DaysInMonth(year: int, month: int): (n: int)
    ensures 28 <= n <= 31
    ensures n == 29 <==> month % 12 == 1 && IsLeapYear(year + month / 12)
  {
    var y := year + month / 12;
    var m := month % 12;
    if m == 1 then (if IsLeapYear(y) then 29 else 28)
    else if m == 3 || m == 5 || m == 8 || m == 10 then 30
    else 31
  }

  /** Days since 1970-01-01 of a day of a month in 0..11 (days beyond the month's end roll over). */
  function DayNumber(d: Date): int
    requires 0 <= d.month < 12
  {
    var m := d.month + 1;
    var y := if m <= 2 then d.year - 1 else d.year;
    var era := y / 400;
    var yoe := y % 400;
    var mp := if m > 2 then m - 3 else m + 9;
    var doy := (153 * mp + 2) / 5 + d.day - 1;
    var doe := yoe * 365 + yoe / 4 - yoe / 100 + doy;
    era * 146097 + doe - 719468
  }

  /**
   * Days since 1970-01-01 of `new Date(year, month, day)`: a month outside
   * 0..11 moves into the neighbouring years first.
   */
  function CivilDayNumber(d: Date): (n: int)
    ensures 0 <= d.month < 12 ==> n == DayNumber(d)
  {
    DayNumber(Date(d.year + d.month / 12, d.month % 12, d.day))
  }

  /** `getDay()`: 0 is Sunday; 1970-01-01 was a Thursday. */
  function Weekday(d: Date): (w: int)
    requires 0 <= d.month < 12
    ensures 0 <= w < 7
  {
    (DayNumber(d) + 4) % 7
  }

  /** Calendar order: `a` is an earlier day than `b`. */
  predicate Before(a: Date, b: Date) {
    a.year < b.year
    || (a.year == b.year && a.month < b.month)
    || (a.year == b.year && a.month == b.month && a.day < b.day)
  }

  /** The next month of the one shown, as `new Date(year, month + 1, 1)` normalises it. */
  function NextMonth(year: int, month: int): (r: (int, int))
    requires 0 <= month < 12
    ensures 0 <= r.1 < 12
    ensures 12 * r.0 + r.1 == 12 * year + month + 1
  {
    if month == 11 then (year + 1, 0) else (year, month + 1)
  }

  /** The previous month, as `new Date(year, month - 1, 1)` normalises it. */
  function PreviousMonth(year: int, month: int): (r: (int, int))
    requires 0 <= month < 12
    ensures 0 <= r.1 < 12
    ensures 12 * r.0 + r.1 == 12 * year + month - 1
  {
    if month == 0 then (year - 1, 11) else (year, month - 1)
  }

  /** Going forward a month and back again returns to the month shown. */
  lemma MonthStepsInverse(year: int, month: int)
    requires 0 <= month < 12
    ensures var n := NextMonth(year, month); PreviousMonth(n.0, n.1) == (year, month)
    ensures var p := PreviousMonth(year, month); NextMonth(p.0, p.1) == (year, month)
  {
  }

  /** Within a month, the day number grows one for one with the day. */
  lemma DayNumberOfDay(d: Date)
    requires 0 <= d.month < 12
    ensures DayNumber(d) == DayNumber(Date(d.year, d.month, 1)) + d.day - 1
  {
  }

  /** Days from the start of era 0 to 1 March of year `y`, as `DayNumber` counts them. */
  function MarchFirst(y: int): int {
    (y / 400) * 146097 + (y % 400) * 365 + (y % 400) / 4 - (y % 400) / 100
  }

  /** The remainder by 4 is the `m` of any `4 * q + m` with `m` in 0..3. */
  lemma RemainderBy4(y: int, q: int, m: int)
    requires 0 <= m < 4 && y == 4 * q + m
    ensures y % 4 == m
  {
  }

  /** The remainder by 100 is the `m` of any `100 * q + m` with `m` in 0..99. */
  lemma RemainderBy100(y: int, q: int, m: int)
    requires 0 <= m < 100 && y == 100 * q + m
    ensures y % 100 == m
  {
  }

  /** Adding a multiple of 400 changes neither the remainder by 4 nor the one by 100. */
  lemma LeapRemainders(y: int)
    ensures y % 4 == (y % 400) % 4 && y % 100 == (y % 400) % 100
  {
    var e, r := y / 400, y % 400;
    assert y == 400 * e + r;
    RemainderBy4(y, 100 * e + r / 4, r % 4);
    RemainderBy100(y, 4 * e + r / 100, r % 100);
  }

  /** One step down in a positive `r` loses one from `r / 4` exactly when 4 divides `r`. */
  lemma QuarterStep(r: int)
    requires 0 < r
    ensures r / 4 - (r - 1) / 4 == if r % 4 == 0 then 1 else 0
  {
  }

  /** One step down in a positive `r` loses one from `r / 100` exactly when 100 divides `r`. */
  lemma CenturyStep(r: int)
    requires 0 < r
    ensures r / 100 - (r - 1) / 100 == if r % 100 == 0 then 1 else 0
  {
  }

  /** The year that ends on the last day of February of `y` has 366 days exactly when `y` is a leap year. */
  lemma MarchYearLength(y: int)
    ensures MarchFirst(y) - MarchFirst(y - 1) == if IsLeapYear(y) then 366 else 365
  {
    var r := y % 400;
    LeapRemainders(y);
    if r == 0 {
      assert (y - 1) / 400 == y / 400 - 1 && (y - 1) % 400 == 399;
      assert IsLeapYear(y);
    } else {
      assert (y - 1) / 400 == y / 400 && (y - 1) % 400 == r - 1;
      QuarterStep(r);
      CenturyStep(r);
      assert r % 100 == 0 ==> r % 4 == 0;
    }
  }

  /** `new Date(year, month, day)` grows one for one with `day`, whatever the month. */
  lemma CivilDayNumberOfDay(d: Date)
    ensures CivilDayNumber(d) == CivilDayNumber(Date(d.year, d.month, 1)) + d.day - 1
  {
    DayNumberOfDay(Date(d.year + d.month / 12, d.month % 12, d.day));
  }

  /** Days from 1 March to the 1st of the `mp`-th month after it. */
  function MarchOffset(mp: int): int {
    (153 * mp + 2) / 5
  }

  /** Consecutive month starts of a March-based year lie a month's length apart (February excepted). */
  lemma MarchOffsetStep(mp: int)
    requires 0 <= mp < 11
    ensures MarchOffset(mp + 1) - MarchOffset(mp) == [31, 30, 31, 30, 31, 31, 30, 31, 30, 31, 31][mp]
  {
  }

  /** `DayNumber` counted from the 1st of March that opens the day's March-based year. */
  lemma DayNumberFromMarch(d: Date)
    requires 0 <= d.month < 12
    ensures var y := if d.month <= 1 then d.year - 1 else d.year;
      var mp := if d.month >= 2 then d.month - 2 else d.month + 10;
      DayNumber(d) == MarchFirst(y) + MarchOffset(mp) + d.day - 1 - 719468
  {
  }

  /** 1 March follows 1 February by the length of that February. */
  lemma FebruaryLength(year: int)
    ensures DayNumber(Date(year, 2, 1)) == DayNumber(Date(year, 1, 1)) + DaysInMonth(year, 1)
  {
    DayNumberFromMarch(Date(year, 1, 1));
    DayNumberFromMarch(Date(year, 2, 1));
    MarchYearLength(year);
    FebruaryDays(year);
    assert MarchOffset(0) == 0 && MarchOffset(11) == 337;
  }

  /** February has 29 days in a leap year and 28 otherwise. */
  lemma FebruaryDays(year: int)
    ensures DaysInMonth(year, 1) == if IsLeapYear(year) then 29 else 28
  {
    assert 1 / 12 == 0 && 1 % 12 == 1;
  }

  /** Any other month of a year ends where the next one in the same year begins. */
  lemma MonthLengthWithinYear(year: int, month: int)
    requires 0 <= month < 11 && month != 1
    ensures DayNumber(Date(year, month + 1, 1)) == DayNumber(Date(year, month, 1)) + DaysInMonth(year, month)
  {
    DayNumberFromMarch(Date(year, month, 1));
    DayNumberFromMarch(Date(year, month + 1, 1));
    var mp := if month >= 2 then month - 2 else month + 10;
    MarchOffsetStep(mp);
  }

  /** 1 January follows 1 December of the year before by 31 days. */
  lemma DecemberLength(year: int)
    ensures DayNumber(Date(year + 1, 0, 1)) == DayNumber(Date(year, 11, 1)) + 31
  {
    DayNumberFromMarch(Date(year, 11, 1));
    DayNumberFromMarch(Date(year + 1, 0, 1));
    MarchOffsetStep(9);
  }

  /**
   * The 1st of the month after `month` (December rolling over to January)
   * falls `DaysInMonth(year, month)` days after the 1st of `month`.
   */
  lemma NextMonthStart(year: int, month: int)
    requires 0 <= month < 12
    ensures CivilDayNumber(Date(year, month + 1, 1)) == DayNumber(Date(year, month, 1)) + DaysInMonth(year, month)
  {
    if month == 1 {
      FebruaryLength(year);
    } else if month == 11 {
      assert CivilDayNumber(Date(year, 12, 1)) == DayNumber(Date(year + 1, 0, 1));
      DecemberLength(year);
    } else {
      MonthLengthWithinYear(year, month);
    }
  }

  /**
   * The last day of the month before `month` (January going back to
   * December) is the day before the 1st of `month`.
   */
  lemma PreviousMonthEnd(year: int, month: int)
    requires 0 <= month < 12
    ensures CivilDayNumber(Date(year, month - 1, DaysInMonth(year, month - 1))) == DayNumber(Date(year, month, 1)) - 1
  {
    if month == 0 {
      var last := DaysInMonth(year, -1);
      assert -1 / 12 == -1 && -1 % 12 == 11;
      assert last == DaysInMonth(year - 1, 11);
      assert CivilDayNumber(Date(year, -1, last)) == DayNumber(Date(year - 1, 11, last));
      NextMonthStart(year - 1, 11);
      assert CivilDayNumber(Date(year - 1, 12, 1)) == DayNumber(Date(year, 0, 1));
      DayNumberOfDay(Date(year - 1, 11, last));
    } else {
      var last := DaysInMonth(year, month - 1);
      NextMonthStart(year, month - 1);
      DayNumberOfDay(Date(year, month - 1, last));
    }
  }

  /** A day that exists: a month in 0..11 and a day of that month. */
  predicate IsRealDay(d: Date) {
    0 <= d.month < 12 && 1 <= d.day <= DaysInMonth(d.year, d.month)
  }

  /** A month starts after every day of any earlier month. */
  lemma {:induction false} MonthStartsIncrease(y1: int, m1: int, y2: int, m2: int)
    requires 0 <= m1 < 12 && 0 <= m2 < 12 && 12 * y1 + m1 < 12 * y2 + m2
    ensures DayNumber(Date(y1, m1, 1)) + DaysInMonth(y1, m1) <= DayNumber(Date(y2, m2, 1))
    decreases 12 * y2 + m2 - (12 * y1 + m1)
  {
    var n := NextMonth(y1, m1);
    NextMonthFirst(y1, m1);
    if (n.0, n.1) != (y2, m2) {
      MonthStartsIncrease(n.0, n.1, y2, m2);
    }
  }

  /** `NextMonthStart` with the next month already normalised. */
  lemma NextMonthFirst(year: int, month: int)
    requires 0 <= month < 12
    ensures var n := NextMonth(year, month);
      DayNumber(Date(n.0, n.1, 1)) == DayNumber(Date(year, month, 1)) + DaysInMonth(year, month)
  {
    NextMonthStart(year, month);
    if month == 11 {
      assert (month + 1) / 12 == 1 && (month + 1) % 12 == 0;
    } else {
      assert (month + 1) / 12 == 0 && (month + 1) % 12 == month + 1;
    }
  }

  /**
   * On real days the calendar order is the order of the day count, so
   * comparing two local midnights, as `dateToCheck < today` does, is
   * `Before`.
   */
  lemma BeforeIsDayOrder(a: Date, b: Date)
    requires IsRealDay(a) && IsRealDay(b)
    ensures Before(a, b) <==> DayNumber(a) < DayNumber(b)
  {
    DayNumberOfDay(a);
    DayNumberOfDay(b);
    if 12 * a.year + a.month < 12 * b.year + b.month {
      MonthStartsIncrease(a.year, a.month, b.year, b.month);
    } else if 12 * b.year + b.month < 12 * a.year + a.month {
      MonthStartsIncrease(b.year, b.month, a.year, a.month);
    } else {
      assert a.year == b.year && a.month == b.month;
    }
  }

  /**
   * The selected-day text: `${year}-${String(month + 1).padStart(2, '0')}-${String(day).padStart(2, '0')}`.
   * The year is written as `String(year)` does, without padding.
   */
  function IsoDate(d: Date): (s: string)
    requires 0 <= d.month < 12 && 1 <= d.day <= 31
  {
    IntToString(d.year) + "-" + PadStart2(NatToString(d.month + 1)) + "-" + PadStart2(NatToString(d.day))
  }

  /** Reads `YYYY-MM-DD` back; months are returned counting from 0. */
  function ParseIsoDate(s: string): (r: Option<Date>)
    ensures r.Some? ==> |s| == 10 && s[4] == '-' && s[7] == '-'
  {
    if |s| == 10 && s[4] == '-' && s[7] == '-' && AllDigits(s[..4]) && AllDigits(s[5..7]) && AllDigits(s[8..])
    then Some(Date(DecimalValue(s[..4]), DecimalValue(s[5..7]) - 1, DecimalValue(s[8..])))
    else None
  }

  lemma {:induction false} DecimalLeadingZero(x: string)
    requires AllDigits(x)
    ensures AllDigits("0" + x) && DecimalValue("0" + x) == DecimalValue(x)
  {
    if x != [] {
      assert ("0" + x)[..|x|] == "0" + x[..|x| - 1];
      DecimalLeadingZero(x[..|x| - 1]);
    }
  }

  lemma {:induction false} NatToStringLength(n: nat)
    ensures n < 10 ==> |NatToString(n)| == 1
    ensures 10 <= n < 100 ==> |NatToString(n)| == 2
    ensures 100 <= n < 1000 ==> |NatToString(n)| == 3
    ensures 1000 <= n < 10000 ==> |NatToString(n)| == 4
  {
    if n >= 10 {
      NatToStringLength(n / 10);
      assert |NatToString(n)| == |NatToString(n / 10)| + 1;
      assert 10 <= n < 100 ==> n / 10 < 10;
      assert 100 <= n < 1000 ==> 10 <= n / 10 < 100;
      assert 1000 <= n < 10000 ==> 100 <= n / 10 < 1000;
    }
  }

  /** Two-digit fields: `padStart(2, '0')` of a number below 100 is two digits with the same value. */
  lemma PaddedField(n: nat)
    requires n < 100
    ensures var p := PadStart2(NatToString(n)); |p| == 2 && AllDigits(p) && DecimalValue(p) == n
  {
    NatToStringLength(n);
    DecimalOfNatToString(n);
    if n < 10 {
      assert PadStart2(NatToString(n)) == "0" + NatToString(n);
      DecimalLeadingZero(NatToString(n));
    }
  }

  /**
   * A text of four, two and two digits joined by '-' has digits everywhere
   * but at positions 4 and 7.
   */
  lemma IsoShape(y: string, m: string, dd: string)
    requires |y| == 4 && |m| == 2 && |dd| == 2 && AllDigits(y) && AllDigits(m) && AllDigits(dd)
    ensures var s := y + "-" + m + "-" + dd;
      |s| == 10 && forall i :: 0 <= i < 10 && i != 4 && i != 7 ==> IsDigit(s[i])
  {
    var s := y + "-" + m + "-" + dd;
    forall i | 0 <= i < 10 && i != 4 && i != 7 ensures IsDigit(s[i]) {
      if i < 4 {
        assert s[i] == y[i];
      } else if i < 7 {
        assert s[i] == m[i - 5];
      } else {
        assert s[i] == dd[i - 8];
      }
    }
  }

  /** Such a text reads back as those three numbers, the month counted from 0. */
  lemma ParseIsoFields(y: string, m: string, dd: string)
    requires |y| == 4 && |m| == 2 && |dd| == 2 && AllDigits(y) && AllDigits(m) && AllDigits(dd)
    ensures ParseIsoDate(y + "-" + m + "-" + dd) == Some(Date(DecimalValue(y), DecimalValue(m) - 1, DecimalValue(dd)))
  {
    FieldSlices(y, m, dd, '-');
  }

  /** The three fields of `a + [sep] + b + [sep] + c` are found again at their offsets. */
  lemma FieldSlices(a: string, b: string, c: string, sep: char)
    ensures var s := a + [sep] + b + [sep] + c;
      && s[..|a|] == a
      && s[|a| + 1..|a| + 1 + |b|] == b
      && s[|a| + |b| + 2..] == c
  {
    var s := a + [sep] + b + [sep] + c;
    assert s == a + ([sep] + b + [sep] + c);
    assert s[|a| + 1..] == b + ([sep] + c);
  }

  /**
   * For a four-digit year the selected-day text has the ISO 8601 extended
   * shape (ten characters, '-' at positions 4 and 7, digits elsewhere) and
   * reading it back gives the same day.
   */
  lemma IsoDateRoundTrip(d: Date)
    requires 1000 <= d.year <= 9999 && 0 <= d.month < 12 && 1 <= d.day <= 31
    ensures |IsoDate(d)| == 10
    ensures forall i :: 0 <= i < 10 && i != 4 && i != 7 ==> IsDigit(IsoDate(d)[i])
    ensures ParseIsoDate(IsoDate(d)) == Some(d)
  {
    var y, m, dd := IsoText(d);
    YearField(d.year);
    PaddedField(d.month + 1);
    PaddedField(d.day);
    IsoShape(y, m, dd);
    ParseIsoFields(y, m, dd);
  }

  /** The selected-day text is the year, the month and the day joined by '-'. */
  lemma IsoText(d: Date) returns (y: string, m: string, dd: string)
    requires 0 <= d.year && 0 <= d.month < 12 && 1 <= d.day <= 31
    ensures y == NatToString(d.year)
    ensures m == PadStart2(NatToString(d.month + 1)) && dd == PadStart2(NatToString(d.day))
    ensures IsoDate(d) == y + "-" + m + "-" + dd
  {
    y := NatToString(d.year);
    m := PadStart2(NatToString(d.month + 1));
    dd := PadStart2(NatToString(d.day));
    assert IntToString(d.year) == y;
  }

  /** A four-digit year prints as four digits with the same value. */
  lemma YearField(n: nat)
    requires 1000 <= n < 10000
    ensures |NatToString(n)| == 4 && DecimalValue(NatToString(n)) == n
  {
    NatToStringLength(n);
    DecimalOfNatToString(n);
  }

}
