// Calendar arithmetic on already-parsed UTC timestamps: the weekday that
// Python's `datetime.weekday()` (Monday = 0) and JavaScript's `getUTCDay()`
// (Sunday = 0) report, the "YYYY-MM" month keys of both reports, and the
// fixed UTC-8 shift of the Tijuana hour table.
module Calendar {
  import opened Text

  datatype DateTime = DateTime(year: int, month: int, day: int, hour: int, minute: int, second: int)

  predicate IsLeapYear(y: int)
  {
    y % 4 == 0 && (y % 100 != 0 || y % 400 == 0)
  }

  function DaysInMonth(y: int, m: int): int
    requires 1 <= m <= 12
  {
    if m == 2 then (if IsLeapYear(y) then 29 else 28)
    else if m == 4 || m == 6 || m == 9 || m == 11 then 30
    else 31
  }

  /** A timestamp Python's `datetime` accepts (years 1 to 9999). */
  predicate ValidDateTime(t: DateTime)
  {
    1 <= t.year <= 9999 && 1 <= t.month <= 12 && 1 <= t.day <= DaysInMonth(t.year, t.month)
    && 0 <= t.hour < 24 && 0 <= t.minute < 60 && 0 <= t.second < 60
  }

  /** Days since 1970-01-01 in the proleptic Gregorian calendar (Hinnant's
   *  days_from_civil; `/` is floor division for the positive divisors here).
   *  Meaningful for a valid date; defined for any triple. */
  function DaysFromCivil(y: int, m: int, d: int): int
  {
    var y' := if m <= 2 then y - 1 else y;
    var era := y' / 400;
    var yoe := y' - era * 400;
    var mp := if m > 2 then m - 3 else m + 9;
    var doy := (153 * mp + 2) / 5 + d - 1;
    var doe := yoe * 365 + yoe / 4 - yoe / 100 + doy;
    era * 146097 + doe - 719468
  }

  /** `datetime.weekday()`: Monday is 0 (1970-01-01 was a Thursday). */
  function MondayFirstWeekday(t: DateTime): (w: int)
    requires ValidDateTime(t)
    ensures 0 <= w < 7
  {
    (DaysFromCivil(t.year, t.month, t.day) + 3) % 7
  }

  /** `Date.prototype.getUTCDay()`: Sunday is 0. */
  function SundayFirstWeekday(t: DateTime): (w: int)
    requires ValidDateTime(t)
    ensures 0 <= w < 7
  {
    (DaysFromCivil(t.year, t.month, t.day) + 4) % 7
  }

  /** The two conventions differ by exactly one position. */
  lemma WeekdayConventions(t: DateTime)
    requires ValidDateTime(t)
    ensures SundayFirstWeekday(t) == (MondayFirstWeekday(t) + 1) % 7
  {
    ShiftMod7(DaysFromCivil(t.year, t.month, t.day) + 3);
  }

  lemma ShiftMod7(x: int)
    ensures (x + 1) % 7 == (x % 7 + 1) % 7
  {
    var q := x / 7;
    assert x == 7 * q + x % 7;
  }

  lemma EpochWasThursday()
    ensures DaysFromCivil(1970, 1, 1) == 0
    ensures MondayFirstWeekday(DateTime(1970, 1, 1, 0, 0, 0)) == 3
  {
    assert 1969 / 400 == 4 && 369 / 4 == 92 && 369 / 100 == 3 && (153 * 10 + 2) / 5 == 306;
    assert DaysFromCivil(1970, 1, 1) == 4 * 146097 + (369 * 365 + 92 - 3 + 306) - 719468;
  }

  lemma NewYear2024WasMonday()
    ensures DaysFromCivil(2024, 1, 1) == 19723
    ensures MondayFirstWeekday(DateTime(2024, 1, 1, 0, 0, 0)) == 0
  {
    assert 2023 / 400 == 5 && 23 / 4 == 5 && 23 / 100 == 0 && (153 * 10 + 2) / 5 == 306;
    assert DaysFromCivil(2024, 1, 1) == 5 * 146097 + (23 * 365 + 5 - 0 + 306) - 719468;
    assert (19723 + 3) % 7 == 0;
  }

  lemma LeapDay2000WasTuesday()
    ensures DaysFromCivil(2000, 2, 29) == 11016
    ensures SundayFirstWeekday(DateTime(2000, 2, 29, 0, 0, 0)) == 2
  {
    assert 1999 / 400 == 4 && 399 / 4 == 99 && 399 / 100 == 3 && (153 * 11 + 2) / 5 == 337;
    assert DaysFromCivil(2000, 2, 29) == 4 * 146097 + (399 * 365 + 99 - 3 + 365) - 719468;
    assert (11016 + 4) % 7 == 2;
  }

  /** Seconds since 1970-01-01T00:00:00Z. */
  function EpochSeconds(t: DateTime): int
  {
    DaysFromCivil(t.year, t.month, t.day) * 86400 + t.hour * 3600 + t.minute * 60 + t.second
  }

  /** Whole days elapsed, rounded down: Python's `(now - created).days` and
   *  `Math.floor((now - created) / 86400000)`. */
  function AgeDays(now: DateTime, created: DateTime): (d: int)
    ensures d * 86400 <= EpochSeconds(now) - EpochSeconds(created) < (d + 1) * 86400
  {
    (EpochSeconds(now) - EpochSeconds(created)) / 86400
  }

  /** A later clock never makes a chat younger. */
  lemma AgeDaysMonotone(now1: DateTime, now2: DateTime, created: DateTime)
    requires EpochSeconds(now1) <= EpochSeconds(now2)
    ensures AgeDays(now1, created) <= AgeDays(now2, created)
  {
  }

  // ---------------------------------------------------------------- month keys

  /** `strftime('%Y-%m')`: the year padded to four digits. */
  function PyMonthKey(t: DateTime): string
    requires ValidDateTime(t)
  {
    PadStart(NatToString(t.year), 4, '0') + "-" + PadStart(NatToString(t.month), 2, '0')
  }

  /** `` `${getUTCFullYear()}-${pad2(getUTCMonth() + 1)}` ``. */
  function TsMonthKey(t: DateTime): string
    requires ValidDateTime(t)
  {
    NatToString(t.year) + "-" + PadStart(NatToString(t.month), 2, '0')
  }

  lemma {:induction false} NatToStringLength(n: nat, k: nat)
    requires n >= Pow10(k)
    ensures |NatToString(n)| >= k + 1
    decreases k
  {
    if k > 0 {
      assert n / 10 >= Pow10(k - 1);
      NatToStringLength(n / 10, k - 1);
    }
  }

  function Pow10(k: nat): nat
  {
    if k == 0 then 1 else 10 * Pow10(k - 1)
  }

  /** For four-digit years both reports bucket by the same key. */
  lemma MonthKeysAgree(t: DateTime)
    requires ValidDateTime(t) && t.year >= 1000
    ensures PyMonthKey(t) == TsMonthKey(t)
  {
    NatToStringLength(t.year, 3);
  }

  /** The Tijuana hour table: Python's `(hour - 8) % 24` (a floor modulo). */
  function TijuanaHour(utcHour: int): (h: int)
    ensures 0 <= h < 24
    ensures (h + 8) % 24 == utcHour % 24
  {
    (utcHour - 8) % 24
  }
}
