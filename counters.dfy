/**
 * The simulated "visits today" / "views today" counters shared by the landing
 * and thank-you screens: the minute of the day picks a point on a line between
 * a floor and a ceiling, a random jitter is added, and the sum is clamped.
 * JavaScript's floating-point numbers are idealised as exact rationals.
 */
module Counters {

  /** `getHours()` of a Date. */
  type Hour = h: int | 0 <= h < 24
  /** `getMinutes()` of a Date. */
  type Minute = m: int | 0 <= m < 60
  /** A draw of `Math.random()`. */
  type RandomDraw = u: real | 0.0 <= u < 1.0

  const MinutesPerDay: int := 24 * 60

  /** `hours * 60 + minutes`: a minute of the day. */
  function MinuteOfDay(h: Hour, m: Minute): (t: int)
    ensures 0 <= t < MinutesPerDay
    ensures t / 60 == h && t % 60 == m
  {
    h * 60 + m
  }

  /** `Math.floor(lo + dayProgress * (hi - lo))` with `dayProgress = t / 1440`. */
  function Interpolate(lo: int, hi: int, t: int): int
  {
    (lo as real + (t as real / MinutesPerDay as real) * (hi - lo) as real).Floor
  }

  /** The interpolation is exact integer arithmetic: `lo + t * (hi - lo) / 1440`, rounded down. */
  lemma {:induction false} InterpolateExact(lo: int, hi: int, t: int)
    ensures Interpolate(lo, hi, t) == lo + (t * (hi - lo)) / MinutesPerDay
  {
    var n := t * (hi - lo);
    var q, rem := n / MinutesPerDay, n % MinutesPerDay;
    assert n == q * MinutesPerDay + rem && 0 <= rem < MinutesPerDay;
    var x := lo as real + (t as real / MinutesPerDay as real) * (hi - lo) as real;
    assert (t as real / 1440.0) * (hi - lo) as real == n as real / 1440.0;
    assert n as real / 1440.0 == q as real + rem as real / 1440.0;
    assert x == (lo + q) as real + rem as real / 1440.0;
    assert (lo + q) as real <= x < (lo + q + 1) as real;
  }

  /** Integer division by a positive constant never decreases as the dividend grows. */
  lemma {:induction false} DivMonotone(a: int, b: int)
    requires a <= b
    ensures a / MinutesPerDay <= b / MinutesPerDay
  {
    var qa, qb := a / MinutesPerDay, b / MinutesPerDay;
    assert qa * MinutesPerDay <= a <= b < (qb + 1) * MinutesPerDay;
  }

  /** The integer part of the interpolation: zero at midnight, monotone in t, below the span all day. */
  lemma {:induction false} IntegerBounds(d: int, t: int, t': int)
    requires d > 0
    requires 0 <= t <= t' < MinutesPerDay
    ensures 0 <= (t * d) / MinutesPerDay <= (t' * d) / MinutesPerDay < d
  {
    assert 0 <= t * d <= t' * d by {
      assert t' * d - t * d == (t' - t) * d;
    }
    DivMonotone(t * d, t' * d);
    assert t' * d < MinutesPerDay * d by {
      assert MinutesPerDay * d - t' * d == (MinutesPerDay - t') * d;
    }
    DivMonotone(0, t * d);
    DivMonotone(t' * d, MinutesPerDay * d - 1);
    assert (MinutesPerDay * d - 1) / MinutesPerDay == d - 1;
  }

  /**
   * Over a day the interpolated value starts at the floor, never decreases as
   * the minute grows, and stays strictly below the ceiling.
   */
  lemma {:induction false} InterpolateBounds(lo: int, hi: int, t: int, t': int)
    requires lo < hi
    requires 0 <= t <= t' < MinutesPerDay
    ensures Interpolate(lo, hi, 0) == lo
    ensures lo <= Interpolate(lo, hi, t) <= Interpolate(lo, hi, t') < hi
  {
    InterpolateExact(lo, hi, 0);
    InterpolateExact(lo, hi, t);
    InterpolateExact(lo, hi, t');
    IntegerBounds(hi - lo, t, t');
  }

  /** A draw scaled by a positive span lies in `[0, span)`. */
  lemma {:induction false} ScaledDraw(u: RandomDraw, span: nat)
    requires span > 0
    ensures 0.0 <= u * span as real < span as real
  {
    assert span as real - u * span as real == (1.0 - u) * span as real;
  }

  /** `Math.floor(Math.random() * span) - below`: a jitter in `[-below, span - 1 - below]`. */
  function Jitter(u: RandomDraw, span: nat, below: int): (j: int)
    requires span > 0
    ensures -below <= j <= span - 1 - below
  {
    ScaledDraw(u, span);
    (u * span as real).Floor - below
  }

  /** Every jitter in the range is produced by some draw. */
  lemma {:induction false} JitterCovers(span: nat, below: int, j: int)
    requires span > 0 && -below <= j <= span - 1 - below
    ensures exists u: RandomDraw :: Jitter(u, span, below) == j
  {
    var k := j + below;
    var u: RandomDraw := k as real / span as real;
    assert u * span as real == k as real;
    assert Jitter(u, span, below) == j;
  }

  /** `Math.max(lo, Math.min(hi, x))`. */
  function Clamp(lo: int, hi: int, x: int): (r: int)
    requires lo <= hi
    ensures lo <= r <= hi
    ensures lo <= x <= hi ==> r == x
    ensures x < lo ==> r == lo
    ensures x > hi ==> r == hi
  {
    var capped := if x < hi then x else hi;
    if lo > capped then lo else capped
  }

  /** A counter: the interpolated base plus the jitter, clamped to the floor and ceiling. */
  function SimulatedCount(lo: int, hi: int, t: int, jitter: int): (r: int)
    requires lo <= hi
    ensures lo <= r <= hi
    ensures lo <= Interpolate(lo, hi, t) + jitter <= hi ==> r == Interpolate(lo, hi, t) + jitter
  {
    Clamp(lo, hi, Interpolate(lo, hi, t) + jitter)
  }

  // Which clock the counters read.

  /**
   * As written: `new Date(now.getTime() - 3 * 60 * 60 * 1000)` read with
   * `getHours()`/`getMinutes()`, which report the browser's local zone. With
   * `zoneOffset` the browser's offset from UTC in minutes, the minute of day
   * read is the local one moved back three hours.
   */
  function ShiftedMinuteOfDay(utcMinute: int, zoneOffset: int): (t: int)
    ensures 0 <= t < MinutesPerDay
    ensures (t - (utcMinute + zoneOffset - 180)) % MinutesPerDay == 0
  {
    (utcMinute + zoneOffset - 180) % MinutesPerDay
  }

  /** Intended: the wall clock of Brasília, UTC minus three hours, whatever the browser's zone. */
  function BrasiliaMinuteOfDay(utcMinute: int): (t: int)
    ensures 0 <= t < MinutesPerDay
    ensures (t - utcMinute + 180) % MinutesPerDay == 0
  {
    (utcMinute - 180) % MinutesPerDay
  }

  /** The hours and minutes a minute of the day shows. */
  function ClockOf(t: int): (hm: (Hour, Minute))
    requires 0 <= t < MinutesPerDay
    ensures MinuteOfDay(hm.0, hm.1) == t
  {
    (t / 60, t % 60)
  }

  /** The shifted reading is Brasília time exactly when the browser runs on UTC (a whole number of days off). */
  lemma {:induction false} ShiftedIsBrasiliaOnlyOnUtc(utcMinute: int, zoneOffset: int)
    ensures ShiftedMinuteOfDay(utcMinute, zoneOffset) == BrasiliaMinuteOfDay(utcMinute)
        <==> zoneOffset % MinutesPerDay == 0
  {
    var a := utcMinute - 180;
    var s, b := (a + zoneOffset) % MinutesPerDay, a % MinutesPerDay;
    var qs, qb := (a + zoneOffset) / MinutesPerDay, a / MinutesPerDay;
    assert a + zoneOffset == qs * MinutesPerDay + s;
    assert a == qb * MinutesPerDay + b;
    assert zoneOffset == (qs - qb) * MinutesPerDay + (s - b);
    var qz := zoneOffset / MinutesPerDay;
    assert zoneOffset == qz * MinutesPerDay + zoneOffset % MinutesPerDay;
    assert s - b == (qz - qs + qb) * MinutesPerDay + zoneOffset % MinutesPerDay;
  }

  /** A browser set to Brasília time at 15:00 UTC (12:00 in Brasília) reads 09:00. */
  lemma ShiftInBrasiliaBrowser()
    ensures ClockOf(ShiftedMinuteOfDay(15 * 60, -180)) == (9, 0)
    ensures ClockOf(BrasiliaMinuteOfDay(15 * 60)) == (12, 0)
  {
    assert ShiftedMinuteOfDay(15 * 60, -180) == 540;
    assert BrasiliaMinuteOfDay(15 * 60) == 720;
  }
}
