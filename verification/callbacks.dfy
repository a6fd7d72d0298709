/**
 * What the timers exchange with the outside world: the state and the events of
 * the platform countdown timer that drives the bounded timers, and the callbacks
 * a timer makes on its owner, recorded as an append-only event log.
 */
module Callbacks {

  import opened Formats

  /**
   * The formatted string handed to the owner's onTicked, by the call that makes it:
   * String.format(template, fields...), TimeUtil.timestampToDate(stamp, format), or
   * TimeUtil.timestampToDate(stamp, pattern) with a caller-supplied pattern.
   */
  datatype Shown =
    | Clock(template: string, fields: seq<int>)
    | DateOf(format: Format, stamp: int)
    | DateWith(pattern: string, stamp: int)

  /** One callback on the owner: onTicked, onPaused (two forms) or onFinished. */
  datatype OwnerEvent =
    | Ticked(shown: Shown, raw: int)
    | Paused(passed: int, left: int)
    | PausedAt(passed: int)
    | Finished

  /**
   * An android.os.CountDownTimer: its duration, its tick interval, and whether it is
   * counting (started and neither cancelled nor finished).
   */
  datatype PlatformTimer = PlatformTimer(millisInFuture: int, countDownInterval: int, running: bool) {

    /** start(): counting begins, with duration and interval as configured. */
    function Started(): (t: PlatformTimer)
      ensures t.running
      ensures t.millisInFuture == millisInFuture && t.countDownInterval == countDownInterval
    {
      this.(running := true)
    }

    /** cancel(), or the finish delivered at the end of the count: counting stops, nothing else changes. */
    function Halted(): (t: PlatformTimer)
      ensures !t.running
      ensures t.millisInFuture == millisInFuture && t.countDownInterval == countDownInterval
      ensures t.Started() == Started()
    {
      this.(running := false)
    }
  }

  /** What a counting platform timer delivers: onTick(millisUntilFinished) or onFinish(). */
  datatype PlatformEvent = Tick(millisUntilFinished: int) | Finish
}
