/** Local calendar arithmetic standing in for `Date.getDay`, `getFullYear`,
    `getMonth`, `getDate` and the date formatters. The time zone is a fixed
    offset `tz` in milliseconds (no daylight-saving changes). */
module Calendar {
  import opened Types

  /** The number of the local day containing t (floor division). */
  function LocalDay(t: Millis, tz: int): int
  {
    (t + tz) / MsPerDay
  }

  /** `getDay()`: 0 = Sunday .. 6 = Saturday; day 0 of the epoch was a Thursday. */
  function Weekday(t: Millis, tz: int): (d: int)
    ensures 0 <= d < 7
  {
    (LocalDay(t, tz) + 4) % 7
  }

  datatype CivilDate = CivilDate(year: int, month: int, day: int)

  /** Proleptic Gregorian date of a day number (days since 1970-01-01),
      by the usual era / year-of-era decomposition. */
  function CivilFromDays(days: int): CivilDate
  {
    var z := days + 719468;
    var era := z / 146097;
    var doe := z - era * 146097;
    var yoe := (doe - doe / 1460 + doe / 36524 - doe / 146096) / 365;
    var doy := doe - (365 * yoe + yoe / 4 - yoe / 100);
    var mp := (5 * doy + 2) / 153;
    var d := doy - (153 * mp + 2) / 5 + 1;
    var m := if mp < 10 then mp + 3 else mp - 9;
    CivilDate(yoe + era * 400 + (if m <= 2 then 1 else 0), m, d)
  }

  /** The local (year, month, date) of t. */
  function LocalDate(t: Millis, tz: int): CivilDate
  {
    CivilFromDays(LocalDay(t, tz))
  }

  /** `getFullYear`, `getMonth` and `getDate` all agree: the two instants fall
      on the same local day (the calendar date names the day number one to one). */
  predicate SameLocalDate(a: Millis, b: Millis, tz: int)
  {
    LocalDay(a, tz) == LocalDay(b, tz)
  }
}
