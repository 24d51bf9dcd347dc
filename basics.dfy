/**
 * Values shared by every part of the model: an optional value (JavaScript's
 * `null`/`undefined` next to a present value) and calendar dates.
 */
module Basics {

  /** A value that may be missing. */
  datatype Option<+T> = None | Some(value: T)

  /**
   * A calendar date "YYYY-MM-DD", written as the integer yyyymmdd
   * (2025-03-14 is 20250314). For ISO dates the order of these integers is
   * both the lexicographic order of the strings and the chronological order
   * of the dates they denote.
   */
  type Date = nat

  /** The calendar year of a date. */
  function YearOf(d: Date): (y: nat)
    ensures y * 10000 <= d < (y + 1) * 10000
  {
    d / 10000
  }

  /** January 1 of a year, as a date. */
  function NewYearsDay(year: nat): (d: Date)
    ensures YearOf(d) == year
  {
    year * 10000 + 101
  }
}
