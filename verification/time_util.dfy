/**
 * TimeUtil: the table from `Format` to date pattern, conversions between timestamps
 * and date strings with their failure fallbacks, and the timestamp difference.
 * The platform formatter and parser are foreign code; they are passed in as
 * functions that either return a value or throw.
 */
module TimeUtils {

  import opened Optional
  import opened Formats
  import opened TimeUnits

  /** The outcome of a call that may throw: its value, or the exception's message (possibly null). */
  datatype Attempt<+T> = Returned(value: T) | Threw(message: Option<string>)

  /** DateFormat.format(pattern, timestamp).toString() */
  type DateFormatter = (string, int) -> Attempt<string>

  /** SimpleDateFormat(pattern).parse(text).time */
  type DateParser = (string, string) -> Attempt<int>

  const FULL_PATTERN: string := "DD:MM:YYYY hh:mm:ss a"
  const FULL24_PATTERN: string := "DD:MM:YYYY hh:mm:ss"
  const DAY_MONTH_YEAR_PATTERN: string := "DD:MM:YYY"
  const DAYS_PATTERN: string := "DD hh:mm:ss"
  const DAILY_PATTERN: string := "hh:mm:ss"

  /** Message of the exception thrown when a `lateinit` customFormat is read before it is set. */
  const UNINITIALIZED_CUSTOM_FORMAT: string := "lateinit property customFormat has not been initialized"

  /** `e.message.toString()`: a null message renders as "null". */
  function MessageText(message: Option<string>): (s: string)
    ensures message.Some? ==> s == message.value
    ensures message.None? ==> s == "null"
  {
    match message
    case Some(m) => m
    case None => "null"
  }

  /**
   * The pattern string for a format, given the current customFormat field; `Custom`
   * reads that field and throws while it is still unset.
   */
  function Pattern(format: Format, customFormat: Option<string>): (p: Attempt<string>)
    ensures format == Format.Custom && customFormat.Some? ==> p == Returned(customFormat.value)
    ensures format == Format.Custom && customFormat.None? ==> p.Threw?
    ensures format != Format.Custom ==> p.Returned? && |p.value| > 0
  {
    match format
    case Full => Returned(FULL_PATTERN)
    case Full24 => Returned(FULL24_PATTERN)
    case DayMonthYear => Returned(DAY_MONTH_YEAR_PATTERN)
    case Days => Returned(DAYS_PATTERN)
    case Daily => Returned(DAILY_PATTERN)
    case Custom =>
      match customFormat
      case Some(f) => Returned(f)
      case None => Threw(Some(UNINITIALIZED_CUSTOM_FORMAT))
  }

  /** The five fixed formats never depend on the custom pattern. */
  lemma FixedPatternsIgnoreCustom(format: Format, c1: Option<string>, c2: Option<string>)
    requires format != Format.Custom
    ensures Pattern(format, c1) == Pattern(format, c2)
  {
  }

  /**
   * `Full` is the `Full24` pattern followed by the am/pm marker. Both use `hh`, the
   * 12-hour field, so `Full24` shows 13:00 as 01:00 with no marker.
   */
  lemma FullIsFull24WithMarker(customFormat: Option<string>)
    ensures Pattern(Full, customFormat).value == Pattern(Full24, customFormat).value + " a"
  {
  }

  /**
   * timestampToDate's body: format with the pattern, or return the message of
   * whatever was thrown, whether by the pattern lookup or by the formatter.
   */
  function FormatOrMessage(pattern: Attempt<string>, stamp: int, dateFormat: DateFormatter): (s: string)
    ensures pattern.Threw? ==> s == MessageText(pattern.message)
    ensures pattern.Returned? ==>
      var out := dateFormat(pattern.value, stamp);
      s == if out.Returned? then out.value else MessageText(out.message)
  {
    match pattern
    case Threw(m) => MessageText(m)
    case Returned(p) =>
      match dateFormat(p, stamp)
      case Returned(text) => text
      case Threw(m) => MessageText(m)
  }

  /** dateToTimestamp's body: the parsed time, or 0 when anything throws. */
  function ParseOrZero(pattern: Attempt<string>, date: string, parse: DateParser): (t: int)
    ensures pattern.Threw? ==> t == 0
    ensures pattern.Returned? ==>
      var out := parse(pattern.value, date);
      t == if out.Returned? then out.value else 0
  {
    match pattern
    case Threw(_) => 0
    case Returned(p) =>
      match parse(p, date)
      case Returned(time) => time
      case Threw(_) => 0
  }

  /**
   * timestampDifference(future, past) = abs(future - past) on `Long`. When the
   * subtraction does not overflow it is the distance between the two timestamps;
   * it is negative exactly when the wrapped difference is Long.MIN_VALUE.
   */
  function TimestampDifference(future: int, past: int): (d: int)
    requires IsLong(future) && IsLong(past)
    ensures IsLong(d)
    ensures LONG_MIN < future - past <= LONG_MAX ==>
      d == if future >= past then future - past else past - future
    ensures d == 0 <==> future == past
    ensures d < 0 <==> WrapLong(future - past) == LONG_MIN
  {
    AbsLong(WrapLong(future - past))
  }

  /** The difference does not depend on the order of its arguments, for every pair of `Long`s. */
  lemma TimestampDifferenceSymmetric(a: int, b: int)
    requires IsLong(a) && IsLong(b)
    ensures TimestampDifference(a, b) == TimestampDifference(b, a)
  {
    var x := a - b;
    WrapLongOnce(x);
    WrapLongOnce(-x);
    if x == LONG_MIN || -x == LONG_MIN {
      assert WrapLong(x) == LONG_MIN && WrapLong(-x) == LONG_MIN;
    } else if x > LONG_MAX {
      assert WrapLong(-x) == -WrapLong(x);
    } else if x < LONG_MIN {
      assert WrapLong(-x) == -WrapLong(x);
    } else {
      assert WrapLong(-x) == -WrapLong(x);
    }
  }

  /**
   * The singleton TimeUtil object. Its one piece of state used by the core is the
   * `lateinit` customFormat, written by the custom overloads and read by the pattern
   * lookup for `Format.Custom`.
   */
  class TimeUtil {

    var customFormat: Option<string>

    constructor ()
      ensures customFormat == None
    {
      customFormat := None;
    }

    /** dateToTimestamp(date, format): the parsed time, or 0 on any failure. */
    method DateToTimestamp(date: string, format: Format, parse: DateParser) returns (t: int)
      ensures t == ParseOrZero(Pattern(format, customFormat), date, parse)
      ensures format == Format.Custom && customFormat.None? ==> t == 0
    {
      t := ParseOrZero(Pattern(format, customFormat), date, parse);
    }

    /** dateToTimestamp(date, customFormat): stores the pattern, then parses with `Custom`. */
    method DateToTimestampCustom(date: string, customFormat: string, parse: DateParser) returns (t: int)
      modifies this
      ensures this.customFormat == Some(customFormat)
      ensures t == ParseOrZero(Returned(customFormat), date, parse)
    {
      this.customFormat := Some(customFormat);
      t := ParseOrZero(Pattern(Format.Custom, this.customFormat), date, parse);
    }

    /** timestampToDate(timeStamp, format): the date text, or the exception's message. */
    method TimestampToDate(stamp: int, format: Format, dateFormat: DateFormatter) returns (s: string)
      ensures s == FormatOrMessage(Pattern(format, customFormat), stamp, dateFormat)
      ensures format == Format.Custom && customFormat.None? ==> s == UNINITIALIZED_CUSTOM_FORMAT
    {
      s := FormatOrMessage(Pattern(format, customFormat), stamp, dateFormat);
    }

    /** timestampToDate(timeStamp, customFormat): stores the pattern, then formats with `Custom`. */
    method TimestampToDateCustom(stamp: int, customFormat: string, dateFormat: DateFormatter) returns (s: string)
      modifies this
      ensures this.customFormat == Some(customFormat)
      ensures s == FormatOrMessage(Returned(customFormat), stamp, dateFormat)
    {
      this.customFormat := Some(customFormat);
      s := FormatOrMessage(Pattern(Format.Custom, this.customFormat), stamp, dateFormat);
    }
  }
}
