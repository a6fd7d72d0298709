/**
 * The three selector enums of the library: the date patterns known to TimeUtil,
 * the display granularities of a countdown, and those of a count-up.
 */
module Formats {

  /** Date patterns understood by TimeUtil; `Custom` stands for a caller-supplied pattern. */
  datatype Format = Full | Full24 | DayMonthYear | Days | Daily | Custom

  /** Countdown displays, from days down to seconds. */
  datatype CountDownFormat = FromDay | FromHour | FromMinute | FromSecond

  /** Count-up displays: clock forms, calendar dates, and a caller-supplied date pattern. */
  datatype CountUpFormat = InMin | InHour | InDay | FullDate | FullDate24 | Custom
}
