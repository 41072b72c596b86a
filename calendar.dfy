/**
 * The IST trading-day calendar. Instants are integer milliseconds since the
 * Unix epoch (UTC); India Standard Time is the fixed offset +05:30 with no
 * daylight saving, so "start of day in Asia/Kolkata" is plain arithmetic.
 */
module Calendar {
  import opened Wrappers
  import Text

  const DayMs: int := 86_400_000
  /** +05:30 in milliseconds. */
  const IstOffsetMs: int := 19_800_000
  /** `endOf('day')` is the last millisecond of the day: 23:59:59.999. */
  const LastMsOfDay: int := 86_399_999

  /** What the controllers hand to the normaliser: an instant, or a calendar date such as "2026-02-06". */
  datatype DateInput = Instant(ms: int) | CalendarDay(year: int, month: int, day: int)

  /** Milliseconds elapsed since IST midnight at instant `t` (the IST wall-clock time). */
  function IstTimeOfDay(t: int): (w: int)
    ensures 0 <= w < DayMs
  {
    (t + IstOffsetMs) % DayMs
  }

  /** `t` is an IST midnight: its IST wall-clock time is 00:00:00.000. */
  predicate IsIstMidnight(t: int)
  {
    IstTimeOfDay(t) == 0
  }

  predicate IsLeapYear(y: int)
  {
    y % 4 == 0 && (y % 100 != 0 || y % 400 == 0)
  }

  function DaysInMonth(y: int, m: int): (n: int)
    requires 1 <= m <= 12
    ensures 28 <= n <= 31
  {
    if m == 2 then (if IsLeapYear(y) then 29 else 28)
    else if m == 4 || m == 6 || m == 9 || m == 11 then 30
    else 31
  }

  predicate ValidDate(y: int, m: int, d: int)
  {
    1 <= m <= 12 && 1 <= d <= DaysInMonth(y, m)
  }

  /** The calendar date that follows a valid date. */
  function NextDate(y: int, m: int, d: int): (int, int, int)
    requires ValidDate(y, m, d)
  {
    if d < DaysInMonth(y, m) then (y, m, d + 1)
    else if m < 12 then (y, m + 1, 1)
    else (y + 1, 1, 1)
  }

  /** Days from the start of a March-based year (March 1st is 0) to the start of its `m`. */
  function DaysBeforeMonth(m: int): int
  {
    var mp := if m > 2 then m - 3 else m + 9;
    (153 * mp + 2) / 5
  }

  /** Days from 0000-03-01 to the first of March of year `y'` (a March-based year). */
  function DaysBeforeMarchYear(y': int): int
  {
    var era := y' / 400;
    var yoe := y' - era * 400;
    era * 146097 + yoe * 365 + yoe / 4 - yoe / 100
  }

  /** Number of days between 1970-01-01 and the given proleptic Gregorian date. */
  function DaysFromCivil(y: int, m: int, d: int): int
  {
    var y' := if m <= 2 then y - 1 else y;
    DaysBeforeMarchYear(y') + DaysBeforeMonth(m) + d - 1 - 719468
  }

  /** Integer division by a positive constant steps by one exactly at the multiples. */
  lemma DivStep(x: int, k: int)
    requires k == 4 || k == 100 || k == 400
    ensures (x + 1) / k - x / k == if (x + 1) % k == 0 then 1 else 0
  {
    var q, r := x / k, x % k;
    DivUnique(x, k, q, r);
    if r == k - 1 {
      DivUnique(x + 1, k, q + 1, 0);
    } else {
      DivUnique(x + 1, k, q, r + 1);
    }
  }

  lemma DivUnique(a: int, k: int, q: int, r: int)
    requires k == 4 || k == 100 || k == 400
    requires a == q * k + r && 0 <= r < k
    ensures a / k == q && a % k == r
    ensures a + 1 == (if r == k - 1 then (q + 1) * k else q * k + r + 1)
  {
    if k == 4 { assert a == q * 4 + r; }
    else if k == 100 { assert a == q * 100 + r; }
    else { assert a == q * 400 + r; }
  }

  /** The era-based count equals the familiar 365y + y/4 - y/100 + y/400. */
  lemma DaysBeforeMarchYearClosedForm(y': int)
    ensures DaysBeforeMarchYear(y') == 365 * y' + y' / 4 - y' / 100 + y' / 400
  {
    var era := y' / 400;
    var yoe := y' - era * 400;
    DivUnique(y', 4, 100 * era + yoe / 4, yoe % 4);
    DivUnique(y', 100, 4 * era + yoe / 100, yoe % 100);
  }

  /** A March-based year has 366 days exactly when the following calendar year is a leap year. */
  lemma MarchYearLength(y': int)
    ensures DaysBeforeMarchYear(y' + 1) - DaysBeforeMarchYear(y') == if IsLeapYear(y' + 1) then 366 else 365
  {
    DaysBeforeMarchYearClosedForm(y');
    DaysBeforeMarchYearClosedForm(y' + 1);
    DivStep(y', 4);
    DivStep(y', 100);
    DivStep(y', 400);
    var x := y' + 1;
    if x % 400 == 0 {
      DivUnique(x, 100, 4 * (x / 400), 0);
      DivUnique(x, 4, 100 * (x / 400), 0);
    } else if x % 100 == 0 {
      DivUnique(x, 4, 25 * (x / 100), 0);
    }
  }

  /** Day numbering agrees with the calendar: the next date is exactly one day later. */
  lemma NextDateIsNextDay(y: int, m: int, d: int)
    requires ValidDate(y, m, d)
    ensures var (y2, m2, d2) := NextDate(y, m, d); DaysFromCivil(y2, m2, d2) == DaysFromCivil(y, m, d) + 1
  {
    if d == DaysInMonth(y, m) && m == 2 {
      MarchYearLength(y - 1);
    }
  }

  /** The IST midnight at or before instant `ms`. */
  function StartOfInstantDay(ms: int): (r: int)
    ensures IsIstMidnight(r) && r <= ms < r + DayMs
  {
    (ms + IstOffsetMs) / DayMs * DayMs - IstOffsetMs
  }

  /** `moment.tz(x, 'Asia/Kolkata').startOf('day')`: the IST midnight that begins x's IST day. */
  function StartOfDay(x: DateInput): (r: int)
    ensures IsIstMidnight(r)
    ensures x.Instant? ==> r <= x.ms < r + DayMs
  {
    match x
    case Instant(ms) => StartOfInstantDay(ms)
    case CalendarDay(y, m, d) => DaysFromCivil(y, m, d) * DayMs - IstOffsetMs
  }

  /** `moment.tz(x, 'Asia/Kolkata').endOf('day')`. */
  function EndOfDay(x: DateInput): (r: int)
    ensures r == StartOfDay(x) + LastMsOfDay
    ensures IsIstMidnight(r + 1)
  {
    StartOfDay(x) + LastMsOfDay
  }

  /** An IST midnight is the start of the day of every instant up to one day later. */
  lemma {:induction false} MidnightIsUniqueStart(t: int, ms: int)
    requires IsIstMidnight(t) && t <= ms < t + DayMs
    ensures StartOfInstantDay(ms) == t
  {
    var s := StartOfInstantDay(ms);
    var q := (t + IstOffsetMs) / DayMs;
    assert t + IstOffsetMs == q * DayMs;
    var p := (s + IstOffsetMs) / DayMs;
    assert s + IstOffsetMs == p * DayMs;
    // both midnights lie within one day below ms, so they are the same multiple of a day
    assert (p - q) * DayMs < DayMs && (q - p) * DayMs < DayMs;
  }

  /** Two IST midnights less than a day apart are the same instant. */
  lemma {:induction false} MidnightsAreWholeDaysApart(a: int, b: int)
    requires IsIstMidnight(a) && IsIstMidnight(b) && a <= b + LastMsOfDay
    ensures a <= b
  {
    var p := (a + IstOffsetMs) / DayMs;
    var q := (b + IstOffsetMs) / DayMs;
    assert a + IstOffsetMs == p * DayMs && b + IstOffsetMs == q * DayMs;
    assert (p - q) * DayMs < DayMs;
  }

  /** Normalisation never moves a later instant to an earlier day. */
  lemma StartOfDayMonotone(a: int, b: int)
    requires a <= b
    ensures StartOfInstantDay(a) <= StartOfInstantDay(b)
  {
    MidnightsAreWholeDaysApart(StartOfInstantDay(a), StartOfInstantDay(b));
  }

  /** Normalising a normalised day again returns it unchanged. */
  lemma StartOfDayIdempotent(x: DateInput)
    ensures StartOfDay(Instant(StartOfDay(x))) == StartOfDay(x)
  {
    MidnightIsUniqueStart(StartOfDay(x), StartOfDay(x));
  }

  /** The end of a day lies in that same IST day. */
  lemma EndOfDaySameDay(x: DateInput)
    ensures StartOfDay(Instant(EndOfDay(x))) == StartOfDay(x)
  {
    MidnightIsUniqueStart(StartOfDay(x), EndOfDay(x));
  }

  /** Every instant of the IST day that a calendar date names normalises to that date's midnight. */
  lemma CalendarDayCoversItsInstants(y: int, m: int, d: int, k: int)
    requires 0 <= k < DayMs
    ensures StartOfDay(Instant(StartOfDay(CalendarDay(y, m, d)) + k)) == StartOfDay(CalendarDay(y, m, d))
  {
    MidnightIsUniqueStart(StartOfDay(CalendarDay(y, m, d)), StartOfDay(CalendarDay(y, m, d)) + k);
  }

  /** `moment.tz(now).subtract(n, 'days').startOf('day')`: IST has no DST, so n days are n * DayMs. */
  lemma DaysAgo(now: int, n: int)
    ensures StartOfDay(Instant(now - n * DayMs)) == StartOfDay(Instant(now)) - n * DayMs
  {
    var t := StartOfDay(Instant(now)) - n * DayMs;
    assert (t + IstOffsetMs) % DayMs == 0 by {
      assert t + IstOffsetMs == (StartOfDay(Instant(now)) + IstOffsetMs) - n * DayMs;
    }
    MidnightIsUniqueStart(t, now - n * DayMs);
  }

  /** A date input the Date cast accepts: any instant, or a calendar date that exists. */
  predicate ValidInput(x: DateInput)
  {
    x.Instant? || ValidDate(x.year, x.month, x.day)
  }

  /**
   * Reads the shape "YYYY-MM-DD" (digits and dashes) naming a date that
   * exists; a month or day out of range is an invalid date, and any other
   * string is not a date of this shape.
   */
  function ParseIsoDate(s: string): (r: Option<DateInput>)
    ensures r.Some? ==>
              && r.value.CalendarDay? && ValidInput(r.value) && 0 <= r.value.year <= 9999
              && s == FormatIsoDate(r.value.year, r.value.month, r.value.day)
    ensures r.Some? <==>
              && |s| == 10 && s[4] == '-' && s[7] == '-'
              && Text.AllDigits(s[..4]) && Text.AllDigits(s[5..7]) && Text.AllDigits(s[8..])
              && ValidDate(Text.DigitsValue(s[..4]), Text.DigitsValue(s[5..7]), Text.DigitsValue(s[8..]))
  {
    if |s| == 10 && s[4] == '-' && s[7] == '-'
       && Text.AllDigits(s[..4]) && Text.AllDigits(s[5..7]) && Text.AllDigits(s[8..])
       && ValidDate(Text.DigitsValue(s[..4]), Text.DigitsValue(s[5..7]), Text.DigitsValue(s[8..]))
    then
      Text.PadDigitsOfValue(s[..4]);
      Text.PadDigitsOfValue(s[5..7]);
      Text.PadDigitsOfValue(s[8..]);
      assert s == s[..4] + "-" + s[5..7] + "-" + s[8..];
      Some(CalendarDay(Text.DigitsValue(s[..4]), Text.DigitsValue(s[5..7]), Text.DigitsValue(s[8..])))
    else None
  }

  /** The "YYYY-MM-DD" text of a date. */
  function FormatIsoDate(y: nat, m: nat, d: nat): (s: string)
    ensures |s| == 10 && s[4] == '-' && s[7] == '-'
  {
    Text.PadDigits(y, 4) + "-" + Text.PadDigits(m, 2) + "-" + Text.PadDigits(d, 2)
  }

  /** Parsing the text of an existing date with a four-digit year gives that date back. */
  lemma ParseFormatRoundTrip(y: nat, m: nat, d: nat)
    requires y <= 9999 && ValidDate(y, m, d)
    ensures ParseIsoDate(FormatIsoDate(y, m, d)) == Some(CalendarDay(y, m, d))
  {
    var s := FormatIsoDate(y, m, d);
    assert s[..4] == Text.PadDigits(y, 4);
    assert s[5..7] == Text.PadDigits(m, 2);
    assert s[8..] == Text.PadDigits(d, 2);
    Text.PadDigitsValue(y, 4);
    Text.PadDigitsValue(m, 2);
    Text.PadDigitsValue(d, 2);
  }

  /** Month 13, day 45 and 30 February are invalid dates and are not read. */
  lemma OutOfRangeDatesNotRead()
    ensures ParseIsoDate("2026-13-45") == None
    ensures ParseIsoDate("2026-02-30") == None
  {
    assert Text.DigitsValue("2026-13-45"[5..7]) == 13 by {
      assert "2026-13-45"[5..7] == "13" && "13"[..1] == "1";
    }
    assert Text.DigitsValue("2026-02-30"[5..7]) == 2 && Text.DigitsValue("2026-02-30"[8..]) == 30 by {
      assert "2026-02-30"[5..7] == "02" && "02"[..1] == "0";
      assert "2026-02-30"[8..] == "30" && "30"[..1] == "3";
    }
  }

  /** "2026-02-06" reads as 6 February 2026. */
  lemma IsoDateExample()
    ensures ParseIsoDate("2026-02-06") == Some(CalendarDay(2026, 2, 6))
  {
    ParseFormatRoundTrip(2026, 2, 6);
    assert FormatIsoDate(2026, 2, 6) == "2026-02-06";
  }

  /** IST midnight of 6 February 2026 is the instant 2026-02-05T18:30:00Z; that of 1 January 1970 is -05:30. */
  lemma IstMidnightExample()
    ensures StartOfDay(CalendarDay(2026, 2, 6)) == 1_770_316_200_000
    ensures StartOfDay(CalendarDay(1970, 1, 1)) == -IstOffsetMs
  {
    assert DaysFromCivil(2026, 2, 6) == 20490;
    assert DaysFromCivil(1970, 1, 1) == 0;
  }
}
