/** The C `struct tm` that every driver converts to and from its registers. */
module Calendar {

  /** The fields of `struct tm` (section 7.27.1 of ISO/IEC 9899:2011); `year` counts from 1900. */
  datatype Tm = Tm(sec: int, min: int, hour: int, mday: int, mon: int, year: int,
                   wday: int, yday: int, isdst: int)

  /**
   * The ranges of section 7.27.1 of ISO/IEC 9899:2011 for the fields the
   * registers hold, with the years 2000..2199 that the century bit can tell apart.
   */
  predicate InRange(t: Tm)
  {
    0 <= t.sec <= 60 && 0 <= t.min <= 59 && 0 <= t.hour <= 23 &&
    1 <= t.mday <= 31 && 0 <= t.mon <= 11 && 100 <= t.year <= 299 && 0 <= t.wday <= 6
  }

  /** What a decoder that leaves day-of-year and DST at 0 gives back for `t`. */
  function Cleared(t: Tm): Tm
  {
    t.(yday := 0, isdst := 0)
  }

  /** Whether a year 2000..2199 is stored with the century flag set: from 2100 on. */
  predicate CenturySet(year: int)
  {
    year >= 200
  }

  /** The two-digit year a year 2000..2199 is stored as, beside its century flag. */
  function YearOfCentury(year: int): (y: int)
    ensures 100 <= year <= 299 ==> 0 <= y <= 99
    ensures y + (if CenturySet(year) then 200 else 100) == year
  {
    if CenturySet(year) then year - 200 else year - 100
  }
}
