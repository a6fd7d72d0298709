/**
 * CountUp: a bounded count-up built on a CountUpTimer. Configuring stores the
 * start point and builds a timer for (from - to); each tick records the time
 * passed and the time remaining and shows the time passed; pause reports both;
 * resume builds a new timer for the time left, so time passed starts again at 0.
 */
module CountUps {

  import opened Optional
  import opened Formats
  import opened TimeUnits
  import opened Callbacks
  import CountUpTimers
  import CountDowns

  /**
   * The clock fields of the InMin, InHour and InDay displays. Each is a unit
   * conversion of `value % 60` (of `value % 24` for days), a value below one
   * second, so every field is 0 whatever the input.
   */
  function ElapsedClockFields(format: CountUpFormat, value: int): (f: seq<int>)
    requires format == InMin || format == InHour || format == InDay
    ensures |f| == if format == InMin then 2 else if format == InHour then 3 else 4
    ensures forall i :: 0 <= i < |f| ==> f[i] == 0
  {
    var r60 := Rem(value, 60);
    match format
    case InMin => [ToMinutes(r60), ToSeconds(r60)]
    case InHour => [ToHours(r60), ToMinutes(r60), ToSeconds(r60)]
    case InDay => [ToDays(Rem(value, 24)), ToHours(r60), ToMinutes(r60), ToSeconds(r60)]
  }

  /**
   * The String.format template of each clock display. The minute and hour displays
   * share the countdown's templates; the day display puts a space before "Days",
   * where the countdown's does not.
   */
  function ElapsedTemplate(format: CountUpFormat): (t: string)
    requires format == InMin || format == InHour || format == InDay
    ensures format == InMin ==> t == CountDowns.MINUTE_TEMPLATE
    ensures format == InHour ==> t == CountDowns.HOUR_TEMPLATE
    ensures format == InDay ==> t == "%02d Days " + CountDowns.HOUR_TEMPLATE
    ensures format == InDay ==> |t| == |CountDowns.DAY_TEMPLATE| + 1
  {
    match format
    case InMin => "%02d:%02d"
    case InHour => "%02d:%02d:%02d"
    case InDay => "%02d Days %02d:%02d:%02d"
  }

  /**
   * What a tick showing `passed` hands to onTicked: a clock display, or the date
   * `from + passed` in the pattern of the format.
   */
  function CountUpShown(format: CountUpFormat, from: int, customFormat: Option<string>, passed: int): (s: Shown)
    requires format == CountUpFormat.Custom ==> customFormat.Some?
    ensures format == InMin || format == InHour || format == InDay ==>
      s.Clock? && forall i :: 0 <= i < |s.fields| ==> s.fields[i] == 0
    ensures format == FullDate ==> s == DateOf(Full, from + passed)
    ensures format == FullDate24 ==> s == DateOf(Full24, from + passed)
    ensures format == CountUpFormat.Custom ==> s == DateWith(customFormat.value, from + passed)
  {
    match format
    case InMin => Clock(ElapsedTemplate(format), ElapsedClockFields(format, passed))
    case InHour => Clock(ElapsedTemplate(format), ElapsedClockFields(format, passed))
    case InDay => Clock(ElapsedTemplate(format), ElapsedClockFields(format, passed))
    case FullDate => DateOf(Full, from + passed)
    case FullDate24 => DateOf(Full24, from + passed)
    case Custom => DateWith(customFormat.value, from + passed)
  }

  class CountUp {

    /** The platform timer underneath the CountUpTimer; `lateinit`. */
    var countUpTimer: Option<PlatformTimer>
    var from: int
    var totalCountUpTime: int
    var timeLeft: int
    var passedTime: int
    /** Never assigned after construction: every timer built by resume uses 1000 ms. */
    var interval: int
    var onTick: Option<CountUpFormat>
    var customFormat: Option<string>
    var events: seq<OwnerEvent>
    /** Whether a tick has been delivered since the current timer was built. */
    ghost var ticked: bool

    /**
     * The timer and its handler are installed together, the timer's duration is the
     * recorded total, the interval keeps its initial value, and after a tick the
     * passed and remaining times add up to the total.
     */
    ghost predicate Valid()
      reads this
    {
      && (countUpTimer.Some? <==> onTick.Some?)
      && (countUpTimer.Some? ==> countUpTimer.value.millisInFuture == totalCountUpTime)
      && interval == 1000
      && (ticked ==> passedTime + timeLeft == totalCountUpTime)
    }

    predicate Configured()
      reads this
    {
      countUpTimer.Some?
    }

    constructor ()
      ensures Valid() && !Configured()
      ensures from == 0 && totalCountUpTime == 0 && timeLeft == 0 && passedTime == 0
      ensures customFormat == None && events == []
    {
      countUpTimer := None;
      from := 0;
      totalCountUpTime := 0;
      timeLeft := 0;
      passedTime := 0;
      interval := 1000;
      onTick := None;
      customFormat := None;
      events := [];
      ticked := false;
    }

    /** countUp(from, to, interval, countUpFormat): duration from - to, start point from. */
    method CountUpWith(from: int, to: int, interval: int, countUpFormat: CountUpFormat)
      requires Valid()
      modifies this
      ensures Valid() && Configured()
      ensures this.from == from && totalCountUpTime == from - to
      ensures countUpTimer == Some(PlatformTimer(from - to, interval, false))
      ensures onTick == Some(countUpFormat)
      ensures customFormat == old(customFormat) && events == old(events)
      ensures timeLeft == old(timeLeft) && passedTime == old(passedTime)
    {
      var diff := from - to;
      this.from := from;
      SetUpTimer(diff, interval, countUpFormat);
    }

    /** countUp(from, to, interval, customFormat): as above, with the pattern stored and `Custom` chosen. */
    method CountUpCustom(from: int, to: int, interval: int, customFormat: string)
      requires Valid()
      modifies this
      ensures Valid() && Configured()
      ensures this.from == from && totalCountUpTime == from - to
      ensures countUpTimer == Some(PlatformTimer(from - to, interval, false))
      ensures onTick == Some(CountUpFormat.Custom) && this.customFormat == Some(customFormat)
      ensures events == old(events) && timeLeft == old(timeLeft) && passedTime == old(passedTime)
    {
      var diff := from - to;
      this.from := from;
      this.customFormat := Some(customFormat);
      SetUpTimer(diff, interval, CountUpFormat.Custom);
    }

    /** Installs the timer with the handler of the chosen format. */
    method SetUpTimer(duration: int, interval: int, countUpFormat: CountUpFormat)
      requires Valid()
      modifies this
      ensures Valid() && Configured()
      ensures totalCountUpTime == duration && onTick == Some(countUpFormat)
      ensures countUpTimer == Some(PlatformTimer(duration, interval, false))
      ensures from == old(from) && customFormat == old(customFormat) && events == old(events)
      ensures timeLeft == old(timeLeft) && passedTime == old(passedTime)
    {
      SetCountUpTimer(duration, interval, countUpFormat);
    }

    /** countUpTimer(duration, interval, onTick): records the total; the interval field is left alone. */
    method SetCountUpTimer(duration: int, interval: int, handler: CountUpFormat)
      requires Valid()
      modifies this
      ensures Valid() && Configured()
      ensures onTick == Some(handler) && totalCountUpTime == duration && !ticked
      ensures countUpTimer == Some(PlatformTimer(duration, interval, false))
      ensures this.interval == old(this.interval)
      ensures from == old(from) && customFormat == old(customFormat) && events == old(events)
      ensures timeLeft == old(timeLeft) && passedTime == old(passedTime)
    {
      onTick := Some(handler);
      totalCountUpTime := duration;
      countUpTimer := Some(PlatformTimer(duration, interval, false));
      ticked := false;
    }

    /**
     * One event delivered by the platform timer, as re-expressed by the CountUpTimer;
     * a timer that is not counting delivers nothing. A tick's display needs the
     * custom pattern when the handler is `Custom`.
     */
    method Deliver(e: PlatformEvent)
      requires Valid() && Configured()
      requires onTick == Some(CountUpFormat.Custom) ==> customFormat.Some?
      modifies this
      ensures Valid() && Configured()
      ensures totalCountUpTime == old(totalCountUpTime) && from == old(from)
      ensures onTick == old(onTick) && customFormat == old(customFormat)
      ensures !old(countUpTimer.value.running) ==>
        && countUpTimer == old(countUpTimer) && events == old(events)
        && timeLeft == old(timeLeft) && passedTime == old(passedTime)
      ensures old(countUpTimer.value.running) && e.Tick? ==>
        && countUpTimer == old(countUpTimer) && ticked
        && timeLeft == e.millisUntilFinished
        && passedTime == totalCountUpTime - e.millisUntilFinished
        && events == old(events) + [Ticked(CountUpShown(onTick.value, from, customFormat, passedTime), passedTime)]
      ensures old(countUpTimer.value.running) && e.Finish? ==>
        && countUpTimer == Some(old(countUpTimer.value).Halted())
        && timeLeft == old(timeLeft) && passedTime == old(passedTime)
        && events == old(events) + [Finished]
    {
      var timer := countUpTimer.value;
      if timer.running {
        match CountUpTimers.Translate(timer.millisInFuture, e)
        case OnTicks(timePassed, timeRemain) =>
          timeLeft := timeRemain;
          passedTime := timePassed;
          ticked := true;
          events := events + [Ticked(CountUpShown(onTick.value, from, customFormat, timePassed), timePassed)];
        case OnFinishTimer =>
          countUpTimer := Some(timer.Halted());
          events := events + [Finished];
      }
    }

    method Start()
      requires Valid() && Configured()
      modifies this
      ensures Valid() && Configured()
      ensures countUpTimer == Some(old(countUpTimer.value).Started())
      ensures totalCountUpTime == old(totalCountUpTime) && timeLeft == old(timeLeft) && passedTime == old(passedTime)
      ensures from == old(from) && onTick == old(onTick) && customFormat == old(customFormat) && events == old(events)
    {
      countUpTimer := Some(countUpTimer.value.Started());
    }

    /**
     * A new timer whose duration is the time left, with the 1000 ms interval; the
     * total becomes the time left, so the next tick's time passed is measured from the resume.
     */
    method Resume()
      requires Valid() && Configured()
      modifies this
      ensures Valid() && Configured()
      ensures countUpTimer == Some(PlatformTimer(old(timeLeft), 1000, false))
      ensures totalCountUpTime == old(timeLeft) && !ticked
      ensures timeLeft == old(timeLeft) && passedTime == old(passedTime)
      ensures from == old(from) && onTick == old(onTick) && customFormat == old(customFormat) && events == old(events)
    {
      SetCountUpTimer(timeLeft, interval, onTick.value);
    }

    /** Cancels the timer and reports the passed and remaining times of the last tick. */
    method Pause()
      requires Valid() && Configured()
      modifies this
      ensures Valid() && Configured()
      ensures countUpTimer == Some(old(countUpTimer.value).Halted())
      ensures events == old(events) + [Paused(passedTime, timeLeft)]
      ensures ticked ==> events[|events| - 1].passed + events[|events| - 1].left == totalCountUpTime
      ensures totalCountUpTime == old(totalCountUpTime) && timeLeft == old(timeLeft) && passedTime == old(passedTime)
      ensures from == old(from) && onTick == old(onTick) && customFormat == old(customFormat)
    {
      countUpTimer := Some(countUpTimer.value.Halted());
      events := events + [Paused(passedTime, timeLeft)];
    }

    /** Cancels the timer and reports the finish, whatever the state. */
    method Stop()
      requires Valid() && Configured()
      modifies this
      ensures Valid() && Configured()
      ensures countUpTimer == Some(old(countUpTimer.value).Halted())
      ensures events == old(events) + [Finished]
      ensures totalCountUpTime == old(totalCountUpTime) && timeLeft == old(timeLeft) && passedTime == old(passedTime)
      ensures from == old(from) && onTick == old(onTick) && customFormat == old(customFormat)
    {
      countUpTimer := Some(countUpTimer.value.Halted());
      events := events + [Finished];
    }
  }

  /**
   * A count-up over 3000 ms with a 500 ms interval, paused after two ticks and
   * resumed: the pause reports 2000 ms passed and 1000 ms left, the resumed timer
   * counts 1000 ms at the fixed 1000 ms interval, and its first tick 500 ms later
   * reports 500 ms passed, not 2500.
   */
  method ResumeRestartsPassedTime() returns (events: seq<OwnerEvent>, resumedTimer: PlatformTimer)
    ensures resumedTimer == PlatformTimer(1000, 1000, true)
    ensures |events| == 4
    ensures events[2] == Paused(2000, 1000)
    ensures events[3].Ticked? && events[3].raw == 500
  {
    var c := new CountUp();
    c.CountUpWith(3000, 0, 500, InMin);
    c.Start();
    assert c.countUpTimer.value.running;
    c.Deliver(Tick(2000));
    c.Deliver(Tick(1000));
    assert c.passedTime == 2000 && c.timeLeft == 1000 && |c.events| == 2;
    c.Pause();
    assert c.events[2] == Paused(2000, 1000);
    c.Resume();
    c.Start();
    assert c.countUpTimer == Some(PlatformTimer(1000, 1000, true));
    c.Deliver(Tick(500));
    assert c.passedTime == 500 && |c.events| == 4;
    events, resumedTimer := c.events, c.countUpTimer.value;
  }
}
