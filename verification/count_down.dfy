/**
 * CountDown: a countdown driven by one platform timer. Configuring records the
 * total and builds a timer; each tick records the remaining time and shows it in
 * the chosen granularity; pause reports (total - left, left); resume builds a new
 * timer for the time left, which counts once start() is called.
 */
module CountDowns {

  import opened Optional
  import opened Formats
  import opened TimeUnits
  import opened Callbacks

  /** The String.format templates of the four countdown displays. */
  const DAY_TEMPLATE: string := "%02dDays %02d:%02d:%02d"
  const HOUR_TEMPLATE: string := "%02d:%02d:%02d"
  const MINUTE_TEMPLATE: string := "%02d:%02d"
  const SECOND_TEMPLATE: string := "%02d"

  /** The four fields of the "Days" display: days % 24, hours % 60, minutes % 60, seconds % 60. */
  function DayFields(remain: int): (f: seq<int>)
    ensures |f| == 4
    ensures -24 < f[0] < 24 && -60 < f[1] < 60 && -60 < f[2] < 60 && -60 < f[3] < 60
    ensures remain >= 0 ==> f[0] >= 0 && f[1] >= 0 && f[2] >= 0 && f[3] >= 0
    ensures remain <= 0 ==> f[0] <= 0 && f[1] <= 0 && f[2] <= 0 && f[3] <= 0
  {
    [Rem(ToDays(remain), 24), Rem(ToHours(remain), 60), Rem(ToMinutes(remain), 60), Rem(ToSeconds(remain), 60)]
  }

  /** The hour display: the day display without its day field. */
  function HourFields(remain: int): (f: seq<int>)
    ensures f == DayFields(remain)[1..]
  {
    [Rem(ToHours(remain), 60), Rem(ToMinutes(remain), 60), Rem(ToSeconds(remain), 60)]
  }

  /** The minute display: the hour display without its hour field. */
  function MinuteFields(remain: int): (f: seq<int>)
    ensures f == HourFields(remain)[1..]
  {
    [Rem(ToMinutes(remain), 60), Rem(ToSeconds(remain), 60)]
  }

  /** The second display: the minute display without its minute field. */
  function SecondFields(remain: int): (f: seq<int>)
    ensures f == MinuteFields(remain)[1..]
  {
    [Rem(ToSeconds(remain), 60)]
  }

  /**
   * What a tick of the given format hands to onTicked as its formatted string: a
   * clock whose fields are the trailing fields of the day display.
   */
  function CountDownShown(format: CountDownFormat, remain: int): (s: Shown)
    ensures s.Clock?
    ensures format == FromDay ==> s.fields == DayFields(remain)
    ensures format == FromHour ==> s.fields == DayFields(remain)[1..]
    ensures format == FromMinute ==> s.fields == DayFields(remain)[2..]
    ensures format == FromSecond ==> s.fields == DayFields(remain)[3..]
  {
    match format
    case FromDay => Clock(DAY_TEMPLATE, DayFields(remain))
    case FromHour => Clock(HOUR_TEMPLATE, HourFields(remain))
    case FromMinute => Clock(MINUTE_TEMPLATE, MinuteFields(remain))
    case FromSecond => Clock(SECOND_TEMPLATE, SecondFields(remain))
  }

  /**
   * Below 60 hours the hour display loses nothing: hours, minutes, seconds and the
   * milliseconds below a second add back up to the remaining time.
   */
  lemma HourFieldsReconstruct(remain: int)
    requires 0 <= remain < 60 * MILLIS_PER_HOUR
    ensures HourFields(remain)[0] * MILLIS_PER_HOUR + HourFields(remain)[1] * MILLIS_PER_MINUTE
          + HourFields(remain)[2] * MILLIS_PER_SECOND + remain % MILLIS_PER_SECOND == remain
  {
    var s := remain / 1000;
    var m := remain / 60000;
    var h := remain / 3600000;
    assert m == s / 60;
    assert h == m / 60;
    QuotRemNonNegative(remain, 1000);
    QuotRemNonNegative(remain, 60000);
    QuotRemNonNegative(remain, 3600000);
    QuotRemNonNegative(s, 60);
    QuotRemNonNegative(m, 60);
    QuotRemNonNegative(h, 60);
  }

  /**
   * Beyond a day the "Days" display counts hours modulo 60, not 24: from one to
   * sixty hours its hour field is the whole number of hours, so the hours of the
   * day field are counted again.
   */
  lemma DayDisplayRepeatsHours(remain: int)
    requires MILLIS_PER_DAY <= remain < 60 * MILLIS_PER_HOUR
    ensures DayFields(remain)[0] >= 1 && DayFields(remain)[1] == ToHours(remain)
    ensures DayFields(remain)[1] >= 24 * DayFields(remain)[0]
  {
    QuotRemNonNegative(remain, MILLIS_PER_DAY);
    QuotRemNonNegative(remain, MILLIS_PER_HOUR);
    QuotRemNonNegative(ToDays(remain), 24);
    QuotRemNonNegative(ToHours(remain), 60);
  }

  /** For instance, 25 hours show as one day and 25 hours. */
  lemma TwentyFiveHoursShown()
    ensures DayFields(25 * MILLIS_PER_HOUR) == [1, 25, 0, 0]
  {
  }

  class CountDown {

    /** The platform timer; `lateinit`, so absent until a countDown overload has run. */
    var countDownTimer: Option<PlatformTimer>
    var totalCountDownTime: int
    var timeLeft: int
    var interval: int
    /** The tick handler installed with the timer, identified by its display format. */
    var onTick: Option<CountDownFormat>
    /** The callbacks made on the owner so far. */
    var events: seq<OwnerEvent>

    /** The timer and its tick handler are installed together, and the timer uses the stored interval. */
    ghost predicate Valid()
      reads this
    {
      && (countDownTimer.Some? <==> onTick.Some?)
      && (countDownTimer.Some? ==> countDownTimer.value.countDownInterval == interval)
    }

    predicate Configured()
      reads this
    {
      countDownTimer.Some?
    }

    constructor ()
      ensures Valid() && !Configured()
      ensures totalCountDownTime == 0 && timeLeft == 0 && interval == 1000 && events == []
    {
      countDownTimer := None;
      totalCountDownTime := 0;
      timeLeft := 0;
      interval := 1000;
      onTick := None;
      events := [];
    }

    /** countDown(durationInMilliSec, interval, countDownFormat) */
    method CountDownFor(durationInMilliSec: int, interval: int, countDownFormat: CountDownFormat)
      modifies this
      ensures Valid() && Configured()
      ensures totalCountDownTime == durationInMilliSec && this.interval == interval
      ensures countDownTimer == Some(PlatformTimer(durationInMilliSec, interval, false))
      ensures onTick == Some(countDownFormat)
      ensures timeLeft == old(timeLeft) && events == old(events)
    {
      SetUpCountDownTimer(durationInMilliSec, interval, countDownFormat);
    }

    /** countDown(future, past, interval, countDownFormat): the duration is future - past, sign and all. */
    method CountDownBetween(future: int, past: int, interval: int, countDownFormat: CountDownFormat)
      modifies this
      ensures Valid() && Configured()
      ensures totalCountDownTime == future - past && this.interval == interval
      ensures countDownTimer == Some(PlatformTimer(future - past, interval, false))
      ensures onTick == Some(countDownFormat)
      ensures timeLeft == old(timeLeft) && events == old(events)
    {
      var diff := future - past;
      SetUpCountDownTimer(diff, interval, countDownFormat);
    }

    /** Records the total, then installs the timer with the handler of the chosen format. */
    method SetUpCountDownTimer(duration: int, interval: int, countDownFormat: CountDownFormat)
      modifies this
      ensures Valid() && Configured()
      ensures totalCountDownTime == duration && this.interval == interval
      ensures countDownTimer == Some(PlatformTimer(duration, interval, false))
      ensures onTick == Some(countDownFormat)
      ensures timeLeft == old(timeLeft) && events == old(events)
    {
      totalCountDownTime := duration;
      SetCountDownTimer(duration, interval, countDownFormat);
    }

    /** countDownTimer(duration, interval, onTick): a new, not yet started platform timer. */
    method SetCountDownTimer(duration: int, interval: int, handler: CountDownFormat)
      modifies this
      ensures Valid() && Configured()
      ensures onTick == Some(handler) && this.interval == interval
      ensures countDownTimer == Some(PlatformTimer(duration, interval, false))
      ensures totalCountDownTime == old(totalCountDownTime) && timeLeft == old(timeLeft) && events == old(events)
    {
      onTick := Some(handler);
      this.interval := interval;
      countDownTimer := Some(PlatformTimer(duration, interval, false));
    }

    /** One event delivered by the platform timer; a timer that is not counting delivers nothing. */
    method Deliver(e: PlatformEvent)
      requires Valid() && Configured()
      modifies this
      ensures Valid() && Configured()
      ensures totalCountDownTime == old(totalCountDownTime) && interval == old(interval) && onTick == old(onTick)
      ensures !old(countDownTimer.value.running) ==>
        countDownTimer == old(countDownTimer) && timeLeft == old(timeLeft) && events == old(events)
      ensures old(countDownTimer.value.running) && e.Tick? ==>
        && countDownTimer == old(countDownTimer)
        && timeLeft == e.millisUntilFinished
        && events == old(events) + [Ticked(CountDownShown(onTick.value, e.millisUntilFinished), e.millisUntilFinished)]
      ensures old(countDownTimer.value.running) && e.Finish? ==>
        && countDownTimer == Some(old(countDownTimer.value).Halted())
        && timeLeft == old(timeLeft)
        && events == old(events) + [Finished]
    {
      if countDownTimer.value.running {
        match e
        case Tick(remainingTime) =>
          timeLeft := remainingTime;
          events := events + [Ticked(CountDownShown(onTick.value, remainingTime), remainingTime)];
        case Finish =>
          countDownTimer := Some(countDownTimer.value.Halted());
          events := events + [Finished];
      }
    }

    method Start()
      requires Valid() && Configured()
      modifies this
      ensures Valid() && Configured()
      ensures countDownTimer == Some(old(countDownTimer.value).Started())
      ensures totalCountDownTime == old(totalCountDownTime) && timeLeft == old(timeLeft)
      ensures interval == old(interval) && onTick == old(onTick) && events == old(events)
    {
      countDownTimer := Some(countDownTimer.value.Started());
    }

    /** A new timer for the time left, with the stored interval and handler; the total is kept. */
    method Resume()
      requires Valid() && Configured()
      modifies this
      ensures Valid() && Configured()
      ensures countDownTimer == Some(PlatformTimer(old(timeLeft), old(interval), false))
      ensures totalCountDownTime == old(totalCountDownTime) && timeLeft == old(timeLeft)
      ensures interval == old(interval) && onTick == old(onTick) && events == old(events)
    {
      SetCountDownTimer(timeLeft, interval, onTick.value);
    }

    /** Cancels the timer and reports the time passed and the time left, which add up to the total. */
    method Pause()
      requires Valid() && Configured()
      modifies this
      ensures Valid() && Configured()
      ensures countDownTimer == Some(old(countDownTimer.value).Halted())
      ensures events == old(events) + [Paused(totalCountDownTime - timeLeft, timeLeft)]
      ensures events[|events| - 1].passed + events[|events| - 1].left == totalCountDownTime
      ensures totalCountDownTime == old(totalCountDownTime) && timeLeft == old(timeLeft)
      ensures interval == old(interval) && onTick == old(onTick)
    {
      countDownTimer := Some(countDownTimer.value.Halted());
      events := events + [Paused(totalCountDownTime - timeLeft, timeLeft)];
    }

    /** Cancels the timer and reports the finish, whatever the state. */
    method Stop()
      requires Valid() && Configured()
      modifies this
      ensures Valid() && Configured()
      ensures countDownTimer == Some(old(countDownTimer.value).Halted())
      ensures events == old(events) + [Finished]
      ensures totalCountDownTime == old(totalCountDownTime) && timeLeft == old(timeLeft)
      ensures interval == old(interval) && onTick == old(onTick)
    {
      countDownTimer := Some(countDownTimer.value.Halted());
      events := events + [Finished];
    }
  }

  /** 4000 ms left shows as 4 in the second display. */
  lemma FourSecondsShown()
    ensures CountDownShown(FromSecond, 4000) == Clock(SECOND_TEMPLATE, [4])
  {
    assert ToSeconds(4000) == 4 by { assert Quot(4000, 1000) == 4000 / 1000; }
    assert Rem(4, 60) == 4 by { assert Quot(4, 60) == 0; }
    assert SecondFields(4000) == [4];
  }

  /**
   * A 5000 ms countdown at 1000 ms shown in seconds, ticked once at 4000 ms left and
   * paused: the tick shows 4 seconds, the pause reports 1000 ms passed and 4000 ms
   * left, and the resumed timer counts the 4000 ms left, stopped until started.
   */
  method TickPauseResume() returns (events: seq<OwnerEvent>, resumedTimer: PlatformTimer)
    ensures |events| == 2
    ensures events[0] == Ticked(Clock(SECOND_TEMPLATE, [4]), 4000)
    ensures events[1] == Paused(1000, 4000)
    ensures resumedTimer == PlatformTimer(4000, 1000, false)
  {
    var c := new CountDown();
    c.CountDownFor(5000, 1000, FromSecond);
    c.Start();
    assert c.countDownTimer == Some(PlatformTimer(5000, 1000, true));
    c.Deliver(Tick(4000));
    assert |c.events| == 1 && c.timeLeft == 4000 && c.totalCountDownTime == 5000;
    assert c.events[0] == Ticked(CountDownShown(FromSecond, 4000), 4000);
    FourSecondsShown();
    c.Pause();
    assert |c.events| == 2 && c.events[1] == Paused(1000, 4000);
    c.Resume();
    events, resumedTimer := c.events, c.countDownTimer.value;
  }
}
