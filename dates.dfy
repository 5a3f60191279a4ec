/**
 * Calendar dates as the core renders them:
 * `new Date(ms).toISOString().split("T")[0]`, the UTC calendar day of an instant.
 */
module Dates {
  import opened Common
  import Strings

  /** The UTC day number (days since 1970-01-01) of an instant; `/` is floor division here. */
  function DayOf(ms: Millis): int {
    ms / MillisPerDay
  }

  /** Adding whole days to an instant moves its UTC day by exactly that many days. */
  lemma DayOfPlusDays(ms: Millis, days: int)
    ensures DayOf(ms + days * MillisPerDay) == DayOf(ms) + days
  {
    var q := ms / MillisPerDay;
    var r := ms % MillisPerDay;
    assert ms + days * MillisPerDay == (q + days) * MillisPerDay + r;
  }

  datatype CivilDate = CivilDate(year: int, month: int, day: int)

  /** The proleptic Gregorian date of a day number (civil-from-days). */
  function CivilFromDays(days: int): CivilDate {
    var z := days + 719468;
    var era := z / 146097;
    var doe := z % 146097;
    var yoe := (doe - doe / 1460 + doe / 36524 - doe / 146096) / 365;
    var doy := doe - (365 * yoe + yoe / 4 - yoe / 100);
    var mp := (5 * doy + 2) / 153;
    var d := doy - (153 * mp + 2) / 5 + 1;
    var m := if mp < 10 then mp + 3 else mp - 9;
    var y := yoe + era * 400;
    CivilDate(if m <= 2 then y + 1 else y, m, d)
  }

  function Pad2(n: int): string {
    if 0 <= n < 10 then "0" + Strings.NatToString(n) else Strings.IntToString(n)
  }

  /** ISO 8601 year: four digits in 0..9999, otherwise a sign and six digits. */
  function IsoYear(y: int): string {
    if 0 <= y <= 9999 then Strings.PadNat(y, 4)
    else (if y < 0 then "-" else "+") + Strings.PadNat(if y < 0 then -y else y, 6)
  }

  /** `YYYY-MM-DD` for a day number. */
  function IsoDate(days: int): string {
    var c := CivilFromDays(days);
    IsoYear(c.year) + "-" + Pad2(c.month) + "-" + Pad2(c.day)
  }

  /** The UTC day of the instant `days` whole days after `now`. */
  function DeadlineDay(now: Millis, days: int): int {
    DayOf(now + days * MillisPerDay)
  }

  /** The date `days` days after the instant `now`, as the scrapers compute their deadlines. */
  function DeadlineAfter(now: Millis, days: int): string {
    IsoDate(DeadlineDay(now, days))
  }

  /** The deadline is the date of the day lying exactly `days` calendar days after the day of `now`. */
  lemma DeadlineAfterIsDayOffset(now: Millis, days: int)
    ensures DeadlineAfter(now, days) == IsoDate(DeadlineDay(now, days))
    ensures DeadlineDay(now, days) == DayOf(now) + days
  {
    DayOfPlusDays(now, days);
  }

  lemma EpochDate()
    ensures CivilFromDays(0) == CivilDate(1970, 1, 1)
  {
    assert 719468 / 146097 == 4 && 719468 % 146097 == 135080;
    assert 135080 / 1460 == 92 && 135080 / 36524 == 3 && 135080 / 146096 == 0;
    assert 134991 / 365 == 369;
    assert 369 / 4 == 92 && 369 / 100 == 3;
    assert 1532 / 153 == 10 && 1532 / 5 == 306;
  }

  lemma LeapDay2024()
    ensures CivilFromDays(19782) == CivilDate(2024, 2, 29)
  {
    assert 739250 / 146097 == 5 && 739250 % 146097 == 8765;
    assert 8765 / 1460 == 6 && 8765 / 36524 == 0 && 8765 / 146096 == 0;
    assert 8759 / 365 == 23;
    assert 23 / 4 == 5 && 23 / 100 == 0;
    assert 1827 / 153 == 11 && 1685 / 5 == 337;
  }
}
