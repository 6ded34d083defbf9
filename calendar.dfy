/**
 * UTC calendar arithmetic behind the timestamp wire format: a point in time
 * is a count of milliseconds since 1970-01-01T00:00:00.000Z (a Java Date),
 * and its broken-down form is a proleptic Gregorian civil date and time.
 */
module Calendar {

  const EpochYear := 1970
  const MillisPerSecond := 1000
  const MillisPerMinute := 60 * MillisPerSecond
  const MillisPerHour := 60 * MillisPerMinute
  const MillisPerDay := 24 * MillisPerHour

  /** A non-negative instant: milliseconds since the epoch. */
  type Instant = nat

  datatype Civil = Civil(year: int, month: int, day: int,
                         hour: int, minute: int, second: int, millis: int)

  predicate IsLeap(y: int) {
    y % 4 == 0 && (y % 100 != 0 || y % 400 == 0)
  }

  function YearDays(y: int): nat {
    if IsLeap(y) then 366 else 365
  }

  function MonthDays(y: int, m: int): nat
    requires 1 <= m <= 12
  {
    if m == 2 then (if IsLeap(y) then 29 else 28)
    else if m == 4 || m == 6 || m == 9 || m == 11 then 30
    else 31
  }

  /** Days of year y before the first of month m (m == 13: the whole year). */
  function MonthStart(y: int, m: int): nat
    requires 1 <= m <= 13
  {
    [0, 31, 59, 90, 120, 151, 181, 212, 243, 273, 304, 334, 365][m - 1]
      + (if IsLeap(y) && m > 2 then 1 else 0)
  }

  /** Number of leap years among the years 1..x. */
  function LeapsThrough(x: int): int {
    x / 4 - x / 100 + x / 400
  }

  /** Days from the epoch to January 1st of year y. */
  function YearStart(y: int): int
    requires y >= EpochYear
  {
    365 * (y - EpochYear) + LeapsThrough(y - 1) - LeapsThrough(EpochYear - 1)
  }

  /** A broken-down time that names a real millisecond on or after the epoch. */
  predicate ValidCivil(c: Civil) {
    && c.year >= EpochYear
    && 1 <= c.month <= 12
    && 1 <= c.day <= MonthDays(c.year, c.month)
    && 0 <= c.hour < 24
    && 0 <= c.minute < 60
    && 0 <= c.second < 60
    && 0 <= c.millis < 1000
  }

  lemma MonthStartStep(y: int, m: int)
    requires 1 <= m <= 12
    ensures MonthStart(y, m + 1) == MonthStart(y, m) + MonthDays(y, m)
    ensures MonthStart(y, 13) == YearDays(y)
  {
  }

  /** Euclidean division is determined by quotient and remainder. */
  lemma DivModUnique(x: int, k: int, q: int, r: int)
    requires k > 0 && 0 <= r < k && x == q * k + r
    ensures x / k == q && x % k == r
  {
    var q', r' := x / k, x % k;
    assert x == q' * k + r';
    assert (q' - q) * k == r - r' by {
      assert (q' - q) * k == q' * k - q * k;
    }
    if q' > q {
      MulAtLeast(q' - q, k);
    } else if q' < q {
      MulAtLeast(q - q', k);
    }
  }

  lemma MulAtLeast(a: int, k: int)
    requires a >= 1 && k > 0
    ensures a * k >= k
  {
    assert a * k == (a - 1) * k + k;
  }

  lemma DivStep(y: int, k: int)
    requires k > 0
    ensures y / k == (y - 1) / k + (if y % k == 0 then 1 else 0)
  {
    var q, r := (y - 1) / k, (y - 1) % k;
    if r == k - 1 {
      DivModUnique(y, k, q + 1, 0);
    } else {
      DivModUnique(y, k, q, r + 1);
    }
  }

  lemma LeapStep(y: int)
    requires y >= 1
    ensures LeapsThrough(y) == LeapsThrough(y - 1) + (if IsLeap(y) then 1 else 0)
  {
    DivStep(y, 4);
    DivStep(y, 100);
    DivStep(y, 400);
    if y % 100 == 0 {
      DivModUnique(y, 4, y / 100 * 25, 0);
    }
    if y % 400 == 0 {
      DivModUnique(y, 100, y / 400 * 4, 0);
    }
  }

  /** Splitting a time of day into hours, minutes, seconds and milliseconds. */
  lemma TimeFields(h: int, mi: int, s: int, ms: int)
    requires 0 <= h < 24 && 0 <= mi < 60 && 0 <= s < 60 && 0 <= ms < 1000
    ensures var rem := h * MillisPerHour + mi * MillisPerMinute + s * MillisPerSecond + ms;
      && rem / MillisPerHour == h && rem % MillisPerHour / MillisPerMinute == mi
      && rem % MillisPerMinute / MillisPerSecond == s && rem % MillisPerSecond == ms
  {
    var rem := h * MillisPerHour + mi * MillisPerMinute + s * MillisPerSecond + ms;
    DivModUnique(rem, MillisPerHour, h, mi * MillisPerMinute + s * MillisPerSecond + ms);
    DivModUnique(rem, MillisPerMinute, h * 60 + mi, s * MillisPerSecond + ms);
    DivModUnique(rem, MillisPerSecond, (h * 60 + mi) * 60 + s, ms);
    DivModUnique(mi * MillisPerMinute + s * MillisPerSecond + ms, MillisPerMinute, mi, s * MillisPerSecond + ms);
    DivModUnique(s * MillisPerSecond + ms, MillisPerSecond, s, ms);
  }

  lemma TimeJoin(rem: int)
    requires 0 <= rem < MillisPerDay
    ensures var h, mi, s, ms := rem / MillisPerHour, rem % MillisPerHour / MillisPerMinute,
                                rem % MillisPerMinute / MillisPerSecond, rem % MillisPerSecond;
      && 0 <= h < 24 && 0 <= mi < 60 && 0 <= s < 60 && 0 <= ms < 1000
      && rem == h * MillisPerHour + mi * MillisPerMinute + s * MillisPerSecond + ms
  {
    var h, mi, s, ms := rem / MillisPerHour, rem % MillisPerHour / MillisPerMinute,
                        rem % MillisPerMinute / MillisPerSecond, rem % MillisPerSecond;
    var a := rem % MillisPerHour;
    DivModUnique(a, MillisPerMinute, mi, a % MillisPerMinute);
    DivModUnique(rem, MillisPerMinute, h * 60 + mi, a % MillisPerMinute);
    var b := rem % MillisPerMinute;
    DivModUnique(b, MillisPerSecond, s, b % MillisPerSecond);
    DivModUnique(rem, MillisPerSecond, (h * 60 + mi) * 60 + s, b % MillisPerSecond);
  }

  /** Each year starts exactly one year-length after the previous one. */
  lemma YearStartStep(y: int)
    requires y >= EpochYear
    ensures YearStart(y + 1) == YearStart(y) + YearDays(y)
    ensures YearStart(EpochYear) == 0
  {
    LeapStep(y);
  }

  lemma {:induction false} YearStartMonotone(a: int, b: int)
    requires EpochYear <= a <= b
    ensures YearStart(a) <= YearStart(b)
    ensures a < b ==> YearStart(a + 1) <= YearStart(b)
    ensures a < b ==> YearStart(a) < YearStart(b)
    decreases b - a
  {
    YearStartStep(a);
    if a < b {
      YearStartMonotone(a + 1, b);
    }
  }

  function ToDays(c: Civil): (d: nat)
    requires ValidCivil(c)
  {
    YearStartStep(EpochYear);
    YearStartMonotone(EpochYear, c.year);
    YearStart(c.year) + MonthStart(c.year, c.month) + c.day - 1
  }

  function TimeOfDay(c: Civil): (ms: nat)
    requires ValidCivil(c)
    ensures ms < MillisPerDay
  {
    c.hour * MillisPerHour + c.minute * MillisPerMinute + c.second * MillisPerSecond + c.millis
  }

  /** The instant a valid broken-down UTC time names. */
  function ToInstant(c: Civil): Instant
    requires ValidCivil(c)
  {
    ToDays(c) * MillisPerDay + TimeOfDay(c)
  }

  /** The year containing day number `days`, searched upwards from year y. */
  function FindYear(days: nat, y: int): (r: int)
    requires y >= EpochYear && YearStart(y) <= days
    ensures r >= y && YearStart(r) <= days < YearStart(r + 1)
    decreases days - YearStart(y)
  {
    YearStartStep(y);
    if days < YearStart(y + 1) then y else FindYear(days, y + 1)
  }

  /** The month containing day-of-year `doy`, searched upwards from month m. */
  function FindMonth(doy: nat, y: int, m: int): (r: int)
    requires 1 <= m <= 12 && MonthStart(y, m) <= doy < YearDays(y)
    ensures m <= r <= 12 && MonthStart(y, r) <= doy < MonthStart(y, r + 1)
    decreases 12 - m
  {
    MonthStartStep(y, m);
    if doy < MonthStart(y, m + 1) then m else FindMonth(doy, y, m + 1)
  }

  /** The broken-down UTC time of an instant; ToInstant undoes it. */
  function FromInstant(t: Instant): (c: Civil)
    ensures ValidCivil(c) && ToInstant(c) == t
  {
    var days := t / MillisPerDay;
    var rem := t % MillisPerDay;
    YearStartStep(EpochYear);
    var y := FindYear(days, EpochYear);
    YearStartStep(y);
    var doy := days - YearStart(y);
    MonthStartStep(y, 1);
    var m := FindMonth(doy, y, 1);
    MonthStartStep(y, m);
    TimeJoin(rem);
    DivModUnique(t, MillisPerDay, days, rem);
    Civil(y, m, doy - MonthStart(y, m) + 1,
          rem / MillisPerHour, rem % MillisPerHour / MillisPerMinute,
          rem % MillisPerMinute / MillisPerSecond, rem % MillisPerSecond)
  }

  lemma {:induction false} FindYearIs(days: nat, y0: int, y: int)
    requires EpochYear <= y0 <= y && YearStart(y) <= days < YearStart(y + 1)
    ensures YearStart(y0) <= days && FindYear(days, y0) == y
    decreases y - y0
  {
    YearStartMonotone(y0, y);
    if y0 < y {
      FindYearIs(days, y0 + 1, y);
    }
  }

  lemma {:induction false} FindMonthIs(doy: nat, y: int, m0: int, m: int)
    requires 1 <= m0 <= m <= 12 && MonthStart(y, m) <= doy < MonthStart(y, m + 1)
    ensures MonthStart(y, m0) <= doy < YearDays(y) && FindMonth(doy, y, m0) == m
    decreases m - m0
  {
    MonthStartStep(y, m);
    if m0 < m {
      FindMonthIs(doy, y, m0 + 1, m);
    }
  }

  /** Distinct valid broken-down times name distinct instants: FromInstant undoes ToInstant. */
  lemma CivilRoundTrip(c: Civil)
    requires ValidCivil(c)
    ensures FromInstant(ToInstant(c)) == c
  {
    var t := ToInstant(c);
    var days := ToDays(c);
    DivModUnique(t, MillisPerDay, days, TimeOfDay(c));
    TimeFields(c.hour, c.minute, c.second, c.millis);
    MonthStartStep(c.year, c.month);
    YearStartStep(c.year);
    FindYearIs(days, EpochYear, c.year);
    var doy := days - YearStart(c.year);
    FindMonthIs(doy, c.year, 1, c.month);
  }
}
