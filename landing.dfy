/**
 * The landing screen (app/page.tsx): the simulated "visits today" counter and
 * the `DD/MM/YYYY` date shown under it.
 */
module Landing {
  import opened Wrappers
  import opened Counters

  const VisitsFloor: int := 30
  const VisitsCeiling: int := 754

  /** `baseVisits`: the floor-to-ceiling interpolation at this minute of the day. */
  function BaseVisits(h: Hour, m: Minute): int
  {
    Interpolate(VisitsFloor, VisitsCeiling, MinuteOfDay(h, m))
  }

  /** `randomVariation`: `Math.floor(Math.random() * 16) - 5`. */
  function VisitsVariation(u: RandomDraw): (v: int)
    ensures -5 <= v <= 10
  {
    Jitter(u, 16, 5)
  }

  /**
   * `calculateVisitsBasedOnTime()` for the Brasília clock `h:m` and the draw
   * `u`: always within [30, 754], and exactly base plus variation whenever
   * that sum is already inside.
   */
  function VisitsBasedOnTime(h: Hour, m: Minute, u: RandomDraw): (visits: int)
    ensures VisitsFloor <= visits <= VisitsCeiling
    ensures VisitsFloor <= BaseVisits(h, m) + VisitsVariation(u) <= VisitsCeiling
      ==> visits == BaseVisits(h, m) + VisitsVariation(u)
  {
    SimulatedCount(VisitsFloor, VisitsCeiling, MinuteOfDay(h, m), VisitsVariation(u))
  }

  /** The counter read from the UTC minute of the day through the Brasília wall clock. */
  function VisitsAt(utcMinute: int, u: RandomDraw): (visits: int)
    ensures VisitsFloor <= visits <= VisitsCeiling
  {
    var hm := ClockOf(BrasiliaMinuteOfDay(utcMinute));
    VisitsBasedOnTime(hm.0, hm.1, u)
  }

  /**
   * The base count is 30 at midnight, never decreases as the day advances,
   * and stays below 754 all day.
   */
  lemma BaseVisitsShape(h: Hour, m: Minute, h': Hour, m': Minute)
    requires MinuteOfDay(h, m) <= MinuteOfDay(h', m')
    ensures BaseVisits(0, 0) == VisitsFloor
    ensures VisitsFloor <= BaseVisits(h, m) <= BaseVisits(h', m') < VisitsCeiling
  {
    InterpolateBounds(VisitsFloor, VisitsCeiling, MinuteOfDay(h, m), MinuteOfDay(h', m'));
  }

  /** The last minute of the day reaches 753: the base never meets the ceiling on its own. */
  lemma BaseVisitsAtLastMinute()
    ensures BaseVisits(23, 59) == 753
  {
    InterpolateExact(VisitsFloor, VisitsCeiling, MinuteOfDay(23, 59));
  }

  // The date string.

  /** `getDate()` of a Date. */
  type DayOfMonth = d: int | 1 <= d <= 31 witness 1
  /** `getMonth()` of a Date: January is 0. */
  type MonthIndex = m: int | 0 <= m < 12

  predicate IsDigit(c: char)
  {
    '0' <= c <= '9'
  }

  predicate AllDigits(s: string)
  {
    forall i :: 0 <= i < |s| ==> IsDigit(s[i])
  }

  function DigitChar(d: int): (c: char)
    requires 0 <= d < 10
    ensures IsDigit(c)
  {
    ('0' as int + d) as char
  }

  /** `n.toString()` for a non-negative integer: decimal digits, no leading zero. */
  function Decimal(n: nat): (s: string)
    ensures 1 <= |s| && AllDigits(s)
    ensures |s| == 1 <==> n < 10
    ensures s[0] == '0' ==> n == 0
  {
    if n < 10 then [DigitChar(n)] else Decimal(n / 10) + [DigitChar(n % 10)]
  }

  /** The number a string of decimal digits denotes. */
  function DecimalValue(s: string): nat
    requires AllDigits(s)
  {
    if s == [] then 0
    else DecimalValue(s[..|s| - 1]) * 10 + (s[|s| - 1] as int - '0' as int)
  }

  /** Reading back the decimal string of n gives n. */
  lemma {:induction false} DecimalRoundTrip(n: nat)
    ensures DecimalValue(Decimal(n)) == n
  {
    if n >= 10 {
      DecimalRoundTrip(n / 10);
      var s := Decimal(n);
      assert s[..|s| - 1] == Decimal(n / 10);
    }
  }

  /** A leading zero does not change the value of a digit string. */
  lemma {:induction false} LeadingZero(s: string)
    requires AllDigits(s)
    ensures AllDigits("0" + s) && DecimalValue("0" + s) == DecimalValue(s)
  {
    if s != [] {
      var t := "0" + s;
      assert t[..|t| - 1] == "0" + s[..|s| - 1];
      LeadingZero(s[..|s| - 1]);
    }
  }

  /** `padStart(2, "0")`. */
  function PadStart2(s: string): (r: string)
    ensures |s| >= 2 ==> r == s
    ensures |s| < 2 ==> |r| == 2 && r[2 - |s|..] == s && forall i :: 0 <= i < 2 - |s| ==> r[i] == '0'
  {
    if |s| >= 2 then s else seq(2 - |s|, _ => '0') + s
  }

  /** A one- or two-digit number, zero-padded to two characters. */
  function TwoDigits(n: nat): (s: string)
    requires n < 100
    ensures |s| == 2 && AllDigits(s) && DecimalValue(s) == n
  {
    var r := PadStart2(Decimal(n));
    DecimalRoundTrip(n);
    if n < 10 then
      assert r == "0" + Decimal(n);
      LeadingZero(Decimal(n));
      r
    else
      r
  }

  /**
   * `formatBrazilianDate()`: `DD/MM/YYYY` with day and month zero-padded to
   * two characters, the month one-based, and the year's decimal digits.
   */
  function FormatBrazilianDate(day: DayOfMonth, month: MonthIndex, year: nat): (s: string)
    ensures |s| == 6 + |Decimal(year)|
    ensures s[2] == '/' && s[5] == '/'
    ensures AllDigits(s[..2]) && AllDigits(s[3..5]) && AllDigits(s[6..])
    ensures 1 <= DecimalValue(s[..2]) <= 31 && 1 <= DecimalValue(s[3..5]) <= 12
  {
    var dd, mm := TwoDigits(day), TwoDigits(month + 1);
    var s := dd + "/" + mm + "/" + Decimal(year);
    assert s[..2] == dd && s[3..5] == mm && s[6..] == Decimal(year);
    s
  }

  /** Reads a `DD/MM/YYYY` string back into day, one-based month and year. */
  function ParseBrazilianDate(s: string): (r: Option<(nat, nat, nat)>)
  {
    if |s| >= 7 && s[2] == '/' && s[5] == '/' && AllDigits(s[..2]) && AllDigits(s[3..5]) && AllDigits(s[6..])
    then Some((DecimalValue(s[..2]), DecimalValue(s[3..5]), DecimalValue(s[6..])))
    else None
  }

  /** The formatted date reads back as the day, the month index plus one, and the year. */
  lemma {:induction false} DateRoundTrip(day: DayOfMonth, month: MonthIndex, year: nat)
    ensures ParseBrazilianDate(FormatBrazilianDate(day, month, year)) == Some((day, month + 1, year))
  {
    var dd, mm := TwoDigits(day), TwoDigits(month + 1);
    var s := FormatBrazilianDate(day, month, year);
    assert s == dd + "/" + mm + "/" + Decimal(year);
    assert s[..2] == dd && s[3..5] == mm && s[6..] == Decimal(year);
    DecimalRoundTrip(year);
  }
}
