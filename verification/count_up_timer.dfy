/**
 * CountUpTimer: a platform countdown timer whose ticks are re-expressed as time
 * passed. It keeps only its immutable duration; each tick reports
 * (duration - msUntilFinished, msUntilFinished) and the finish is passed on as is.
 */
module CountUpTimers {

  import opened Callbacks

  /** The two abstract callbacks a CountUpTimer makes on its owner. */
  datatype Upcall = OnTicks(timePassed: int, timeRemain: int) | OnFinishTimer

  /** What a CountUpTimer of the given duration makes of one platform event. */
  function Translate(duration: int, e: PlatformEvent): (u: Upcall)
    ensures e.Finish? <==> u.OnFinishTimer?
    ensures e.Tick? ==> u.OnTicks? && u.timeRemain == e.millisUntilFinished
    ensures u.OnTicks? ==> u.timePassed + u.timeRemain == duration
  {
    match e
    case Tick(msUntilFinished) => OnTicks(duration - msUntilFinished, msUntilFinished)
    case Finish => OnFinishTimer
  }

  /** While the platform reports a remaining time within the duration, time passed is within it too. */
  lemma PassedWithinDuration(duration: int, msUntilFinished: int)
    requires 0 <= msUntilFinished <= duration
    ensures 0 <= Translate(duration, Tick(msUntilFinished)).timePassed <= duration
  {
  }

  /** Time passed grows by exactly as much as the remaining time shrinks between two ticks. */
  lemma PassedTracksRemaining(duration: int, earlier: int, later: int)
    ensures Translate(duration, Tick(later)).timePassed - Translate(duration, Tick(earlier)).timePassed
         == earlier - later
  {
  }
}
