/**
 * InfiniteCountUp: the owner-facing wrapper around an InfiniteCountUpTimer.
 * Configuring stores the start point and the interval and builds a new inner
 * timer; start, pause, resume and stop are passed straight to that timer, and
 * its callbacks are forwarded to the owner, a tick's value being shown in the
 * chosen format without any offset.
 */
module InfiniteCountUps {

  import opened Optional
  import opened Formats
  import opened Callbacks
  import opened InfiniteTimers
  import CountUps

  /**
   * What a tick reporting `value` hands to onTicked: the count-up clock display, or
   * the value itself as a date. FullDate24 uses the `Full` pattern, with its am/pm
   * marker, exactly like FullDate.
   */
  function InfiniteShown(format: CountUpFormat, value: int, customFormat: Option<string>): (s: Shown)
    requires format == CountUpFormat.Custom ==> customFormat.Some?
    ensures format == InMin || format == InHour || format == InDay ==>
      s.Clock? && forall i :: 0 <= i < |s.fields| ==> s.fields[i] == 0
    ensures format == CountUpFormat.Custom ==> s == DateWith(customFormat.value, value)
  {
    match format
    case InMin => Clock(CountUps.ElapsedTemplate(format), CountUps.ElapsedClockFields(format, value))
    case InHour => Clock(CountUps.ElapsedTemplate(format), CountUps.ElapsedClockFields(format, value))
    case InDay => Clock(CountUps.ElapsedTemplate(format), CountUps.ElapsedClockFields(format, value))
    case FullDate => DateOf(Full, value)
    case FullDate24 => DateOf(Full, value)
    case Custom => DateWith(customFormat.value, value)
  }

  /**
   * Both calendar formats show the reported value itself with the `Full` pattern,
   * whereas the bounded count-up shows from + passed and uses `Full24` for FullDate24.
   */
  lemma FullDate24ShownAsFullDate(value: int, customFormat: Option<string>)
    ensures InfiniteShown(FullDate24, value, customFormat) == InfiniteShown(FullDate, value, customFormat)
    ensures InfiniteShown(FullDate, value, customFormat) == DateOf(Full, value)
    ensures CountUps.CountUpShown(FullDate24, 0, customFormat, value) == DateOf(Full24, value)
  {
  }

  /** The owner callback made for one callback of the inner timer. */
  function Forward(u: Upcall, format: CountUpFormat, customFormat: Option<string>): (ev: OwnerEvent)
    requires u.OnTick? && format == CountUpFormat.Custom ==> customFormat.Some?
    ensures u.OnTick? <==> ev.Ticked?
    ensures u.OnTick? ==> ev.raw == u.passedTime && ev.shown == InfiniteShown(format, u.passedTime, customFormat)
    ensures u.OnPause? <==> ev.PausedAt?
    ensures u.OnPause? ==> ev.passed == u.passedTime
    ensures u.OnFinish? <==> ev.Finished?
  {
    match u
    case OnTick(passedTime) => Ticked(InfiniteShown(format, passedTime, customFormat), passedTime)
    case OnPause(passedTime) => PausedAt(passedTime)
    case OnFinish => Finished
  }

  class InfiniteCountUp {

    var from: int
    var interval: int
    var onTick: Option<CountUpFormat>
    /** The inner timer; `lateinit`, so null until an infiniteCountUp overload has run. */
    var infiniteCountUpTimer: InfiniteCountUpTimer?
    var customFormat: Option<string>
    /** The callbacks made on the owner so far. */
    var events: seq<OwnerEvent>

    /** The inner timer and its handler are installed together, and the timer uses the stored interval. */
    ghost predicate Valid()
      reads this, infiniteCountUpTimer
    {
      && (infiniteCountUpTimer != null <==> onTick.Some?)
      && (infiniteCountUpTimer != null ==>
            infiniteCountUpTimer.Valid() && infiniteCountUpTimer.interval == interval)
    }

    predicate Configured()
      reads this
    {
      infiniteCountUpTimer != null
    }

    constructor ()
      ensures Valid() && !Configured()
      ensures from == 0 && interval == 0 && customFormat == None && events == []
    {
      from := 0;
      interval := 0;
      onTick := None;
      infiniteCountUpTimer := null;
      customFormat := None;
      events := [];
    }

    /** infiniteCountUp(interval, countUpFormat): counting up from 0. */
    method InfiniteCountUpFromZero(interval: int, countUpFormat: CountUpFormat)
      modifies this
      ensures Valid() && Configured() && fresh(infiniteCountUpTimer)
      ensures from == 0 && this.interval == interval && onTick == Some(countUpFormat)
      ensures infiniteCountUpTimer.startTime == 0 && infiniteCountUpTimer.interval == interval
      ensures infiniteCountUpTimer.queued == 0 && infiniteCountUpTimer.timePassed == 0
      ensures !infiniteCountUpTimer.isStopped && infiniteCountUpTimer.resumeTime == 0 && infiniteCountUpTimer.upcalls == []
      ensures customFormat == old(customFormat) && events == old(events)
    {
      InfiniteCountUpFrom(0, interval, countUpFormat);
    }

    /** infiniteCountUp(startTime, interval, countUpFormat) */
    method InfiniteCountUpFrom(startTime: int, interval: int, countUpFormat: CountUpFormat)
      modifies this
      ensures Valid() && Configured() && fresh(infiniteCountUpTimer)
      ensures from == startTime && this.interval == interval && onTick == Some(countUpFormat)
      ensures infiniteCountUpTimer.startTime == startTime && infiniteCountUpTimer.interval == interval
      ensures infiniteCountUpTimer.queued == 0 && infiniteCountUpTimer.timePassed == 0
      ensures !infiniteCountUpTimer.isStopped && infiniteCountUpTimer.resumeTime == 0 && infiniteCountUpTimer.upcalls == []
      ensures customFormat == old(customFormat) && events == old(events)
    {
      from := startTime;
      this.interval := interval;
      SetUpTimer(startTime, countUpFormat);
    }

    /** infiniteCountUp(startTime, interval, customFormat): as above, with the pattern stored and `Custom` chosen. */
    method InfiniteCountUpCustom(startTime: int, interval: int, customFormat: string)
      modifies this
      ensures Valid() && Configured() && fresh(infiniteCountUpTimer)
      ensures from == startTime && this.interval == interval && onTick == Some(CountUpFormat.Custom)
      ensures this.customFormat == Some(customFormat)
      ensures infiniteCountUpTimer.startTime == startTime && infiniteCountUpTimer.interval == interval
      ensures infiniteCountUpTimer.queued == 0 && infiniteCountUpTimer.timePassed == 0
      ensures !infiniteCountUpTimer.isStopped && infiniteCountUpTimer.resumeTime == 0 && infiniteCountUpTimer.upcalls == []
      ensures events == old(events)
    {
      from := startTime;
      this.customFormat := Some(customFormat);
      this.interval := interval;
      SetUpTimer(startTime, CountUpFormat.Custom);
    }

    /** Installs a timer with the handler of the chosen format. */
    method SetUpTimer(startTime: int, countUpFormat: CountUpFormat)
      modifies this
      ensures Valid() && Configured() && fresh(infiniteCountUpTimer)
      ensures onTick == Some(countUpFormat)
      ensures infiniteCountUpTimer.startTime == startTime && infiniteCountUpTimer.interval == interval
      ensures infiniteCountUpTimer.queued == 0 && infiniteCountUpTimer.timePassed == 0
      ensures !infiniteCountUpTimer.isStopped && infiniteCountUpTimer.resumeTime == 0 && infiniteCountUpTimer.upcalls == []
      ensures from == old(from) && interval == old(interval) && customFormat == old(customFormat)
      ensures events == old(events)
    {
      RunTimer(startTime, countUpFormat);
    }

    /** runTimer(startTime, onTick): a new inner timer over (startTime, interval). */
    method RunTimer(startTime: int, handler: CountUpFormat)
      modifies this
      ensures Valid() && Configured() && fresh(infiniteCountUpTimer)
      ensures onTick == Some(handler)
      ensures infiniteCountUpTimer.startTime == startTime && infiniteCountUpTimer.interval == interval
      ensures infiniteCountUpTimer.queued == 0 && infiniteCountUpTimer.timePassed == 0
      ensures !infiniteCountUpTimer.isStopped && infiniteCountUpTimer.resumeTime == 0 && infiniteCountUpTimer.upcalls == []
      ensures from == old(from) && interval == old(interval) && customFormat == old(customFormat)
      ensures events == old(events)
    {
      onTick := Some(handler);
      infiniteCountUpTimer := new InfiniteCountUpTimer(startTime, interval);
    }

    method Start()
      requires Valid() && Configured()
      modifies infiniteCountUpTimer
      ensures Valid() && Configured()
      ensures !infiniteCountUpTimer.isStopped && infiniteCountUpTimer.resumeTime == infiniteCountUpTimer.startTime
      ensures infiniteCountUpTimer.timePassed == old(infiniteCountUpTimer.timePassed)
      ensures infiniteCountUpTimer.queued == old(infiniteCountUpTimer.queued) + 1
      ensures infiniteCountUpTimer.upcalls == old(infiniteCountUpTimer.upcalls) && events == old(events)
    {
      infiniteCountUpTimer.Start();
    }

    method Resume()
      requires Valid() && Configured()
      modifies infiniteCountUpTimer
      ensures Valid() && Configured()
      ensures !infiniteCountUpTimer.isStopped
      ensures infiniteCountUpTimer.resumeTime == old(infiniteCountUpTimer.resumeTime)
      ensures infiniteCountUpTimer.timePassed == old(infiniteCountUpTimer.timePassed)
      ensures infiniteCountUpTimer.queued == old(infiniteCountUpTimer.queued) + 1
      ensures infiniteCountUpTimer.upcalls == old(infiniteCountUpTimer.upcalls) && events == old(events)
    {
      infiniteCountUpTimer.Resume();
    }

    /** The inner timer's onPause value reaches the owner's onPaused unchanged. */
    method Pause()
      requires Valid() && Configured()
      modifies this, infiniteCountUpTimer
      ensures Valid() && Configured() && infiniteCountUpTimer == old(infiniteCountUpTimer)
      ensures infiniteCountUpTimer.isStopped && infiniteCountUpTimer.queued == 0
      ensures infiniteCountUpTimer.resumeTime == old(infiniteCountUpTimer.resumeTime)
      ensures infiniteCountUpTimer.timePassed == old(infiniteCountUpTimer.timePassed)
      ensures infiniteCountUpTimer.upcalls == old(infiniteCountUpTimer.upcalls) + [OnPause(old(infiniteCountUpTimer.resumeTime))]
      ensures events == old(events) + [PausedAt(old(infiniteCountUpTimer.resumeTime))]
      ensures from == old(from) && interval == old(interval) && onTick == old(onTick) && customFormat == old(customFormat)
    {
      infiniteCountUpTimer.Pause();
      var u := infiniteCountUpTimer.upcalls[|infiniteCountUpTimer.upcalls| - 1];
      events := events + [Forward(u, onTick.value, customFormat)];
    }

    method Stop()
      requires Valid() && Configured()
      modifies this, infiniteCountUpTimer
      ensures Valid() && Configured() && infiniteCountUpTimer == old(infiniteCountUpTimer)
      ensures infiniteCountUpTimer.isStopped && infiniteCountUpTimer.queued == 0
      ensures infiniteCountUpTimer.resumeTime == old(infiniteCountUpTimer.resumeTime)
      ensures infiniteCountUpTimer.timePassed == old(infiniteCountUpTimer.timePassed)
      ensures infiniteCountUpTimer.upcalls == old(infiniteCountUpTimer.upcalls) + [OnFinish]
      ensures events == old(events) + [Finished]
      ensures from == old(from) && interval == old(interval) && onTick == old(onTick) && customFormat == old(customFormat)
    {
      infiniteCountUpTimer.Stop();
      var u := infiniteCountUpTimer.upcalls[|infiniteCountUpTimer.upcalls| - 1];
      events := events + [Forward(u, onTick.value, customFormat)];
    }

    /**
     * The handler consumes one queued message of the inner timer; a running tick's
     * value is forwarded to onTicked in the chosen format.
     */
    method HandleMessage()
      requires Valid() && Configured() && infiniteCountUpTimer.queued > 0
      requires onTick == Some(CountUpFormat.Custom) ==> customFormat.Some?
      modifies this, infiniteCountUpTimer
      ensures Valid() && Configured() && infiniteCountUpTimer == old(infiniteCountUpTimer)
      ensures from == old(from) && interval == old(interval) && onTick == old(onTick) && customFormat == old(customFormat)
      ensures infiniteCountUpTimer.isStopped == old(infiniteCountUpTimer.isStopped)
      ensures old(infiniteCountUpTimer.isStopped) ==>
        && infiniteCountUpTimer.queued == old(infiniteCountUpTimer.queued) - 1
        && infiniteCountUpTimer.upcalls == old(infiniteCountUpTimer.upcalls)
        && events == old(events)
        && infiniteCountUpTimer.resumeTime == old(infiniteCountUpTimer.resumeTime)
        && infiniteCountUpTimer.timePassed == old(infiniteCountUpTimer.timePassed)
      ensures !old(infiniteCountUpTimer.isStopped) ==>
        && infiniteCountUpTimer.queued == old(infiniteCountUpTimer.queued)
        && infiniteCountUpTimer.upcalls == old(infiniteCountUpTimer.upcalls) + [OnTick(infiniteCountUpTimer.resumeTime)]
        && Progress(infiniteCountUpTimer.timePassed, infiniteCountUpTimer.resumeTime)
           == Step(Progress(old(infiniteCountUpTimer.timePassed), old(infiniteCountUpTimer.resumeTime)), interval)
        && events == old(events) + [Ticked(InfiniteShown(onTick.value, infiniteCountUpTimer.resumeTime, customFormat),
                                           infiniteCountUpTimer.resumeTime)]
    {
      var stopped := infiniteCountUpTimer.isStopped;
      infiniteCountUpTimer.HandleMessage();
      if !stopped {
        var u := infiniteCountUpTimer.upcalls[|infiniteCountUpTimer.upcalls| - 1];
        events := events + [Forward(u, onTick.value, customFormat)];
      }
    }
  }

  /**
   * A stopwatch started at 1600000000000 with a 1000 ms interval: the elapsed time
   * grows by one interval per tick, so three ticks report 1000, 3000 and 6000 ms
   * past the start.
   */
  method QuadraticReports() returns (events: seq<OwnerEvent>)
    ensures events == [Ticked(DateOf(Full, 1600000001000), 1600000001000),
                       Ticked(DateOf(Full, 1600000003000), 1600000003000),
                       Ticked(DateOf(Full, 1600000006000), 1600000006000)]
  {
    var c := new InfiniteCountUp();
    c.InfiniteCountUpFrom(1600000000000, 1000, FullDate);
    c.Start();
    assert !c.infiniteCountUpTimer.isStopped && c.infiniteCountUpTimer.queued == 1;
    c.HandleMessage();
    assert c.infiniteCountUpTimer.resumeTime == 1600000001000 && c.infiniteCountUpTimer.timePassed == 1000;
    assert c.events == [Ticked(DateOf(Full, 1600000001000), 1600000001000)];
    c.HandleMessage();
    assert c.infiniteCountUpTimer.resumeTime == 1600000003000 && c.infiniteCountUpTimer.timePassed == 2000;
    assert |c.events| == 2 && c.events[1] == Ticked(DateOf(Full, 1600000003000), 1600000003000);
    c.HandleMessage();
    events := c.events;
  }

  /**
   * With a 1000 ms interval from 0: after two ticks a pause reports 3000, the tick
   * after the resume carries on from it to 6000, and after stop nothing is queued.
   */
  method PauseResumeCarriesOn() returns (events: seq<OwnerEvent>, queuedAfterStop: nat)
    ensures events == [Ticked(DateOf(Full, 1000), 1000), Ticked(DateOf(Full, 3000), 3000),
                       PausedAt(3000), Ticked(DateOf(Full, 6000), 6000), Finished]
    ensures queuedAfterStop == 0
  {
    var c := new InfiniteCountUp();
    c.InfiniteCountUpFrom(0, 1000, FullDate);
    c.Start();
    c.HandleMessage();
    assert c.infiniteCountUpTimer.resumeTime == 1000 && c.infiniteCountUpTimer.timePassed == 1000;
    assert c.events == [Ticked(DateOf(Full, 1000), 1000)];
    c.HandleMessage();
    assert c.infiniteCountUpTimer.resumeTime == 3000 && c.infiniteCountUpTimer.timePassed == 2000;
    c.Pause();
    assert c.events == [Ticked(DateOf(Full, 1000), 1000), Ticked(DateOf(Full, 3000), 3000), PausedAt(3000)];
    c.Resume();
    assert !c.infiniteCountUpTimer.isStopped && c.infiniteCountUpTimer.queued == 1;
    c.HandleMessage();
    assert c.infiniteCountUpTimer.resumeTime == 6000;
    c.Stop();
    events, queuedAfterStop := c.events, c.infiniteCountUpTimer.queued;
  }

  /**
   * resume() straight after configuring skips start(), which is what sets resumeTime
   * to the start point: from 5000 at 1000 ms the first tick reports 1000, not 6000.
   */
  method ResumeBeforeStartIgnoresStartTime() returns (events: seq<OwnerEvent>)
    ensures events == [Ticked(DateOf(Full, 1000), 1000)]
  {
    var c := new InfiniteCountUp();
    c.InfiniteCountUpFrom(5000, 1000, FullDate);
    c.Resume();
    assert c.infiniteCountUpTimer.resumeTime == 0 && c.infiniteCountUpTimer.timePassed == 0;
    c.HandleMessage();
    events := c.events;
  }
}
