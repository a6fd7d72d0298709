# TimeUtil timers in Dafny

This project models the core of the Android library TimeUtil (`com.ppk.dinger.timeutil`). It has four parts:

- **CountDown**: a bounded countdown driven by a platform `CountDownTimer`. Each tick shows the remaining time at a chosen granularity: days, hours, minutes or seconds.
- **CountUp**: a bounded count-up built on `CountUpTimer`. `CountUpTimer` re-expresses each countdown tick as time passed and time remaining. Each tick shows either a clock whose fields are always 0 (the `% 60` is taken before the unit conversion), or `from + passed` as a date.
- **InfiniteCountUp**: an unbounded count-up over `InfiniteCountUpTimer`. That timer is driven by a message handler. Every handled message, unless the timer is stopped, adds the interval to `timePassed`, adds `timePassed` to `resumeTime`, reports `resumeTime`, and queues the next message.
- **TimeUtil**: the pattern table behind `Format`, conversions between timestamps and date strings with their fallbacks, and the timestamp difference.

Modules:

- `Formats`: the three enums as datatypes.
- `TimeUnits`: Kotlin's truncating `Long` division and remainder, the `TimeUnit` conversions, and `Long` wrap-around.
- `Callbacks`: the state of a platform timer, the events it delivers, and the owner callbacks.
- The rest: one module per Kotlin file.

How the model represents the Kotlin code:

- Classes whose fields are updated in place are Dafny classes with the same fields.
- A `lateinit` field is an `Option`, or a nullable reference for the inner infinite timer. The timer operations require their timer to be set. TimeUtil's `customFormat` is the exception: reading it while unset is modelled as the throw it causes.
- The owner callbacks `onTicked`, `onPaused` and `onFinished` append to an `events` sequence.
- A platform `CountDownTimer` is a `PlatformTimer` value: duration, interval and whether it is counting. Its deliveries are handed to `Deliver` as `Tick(msUntilFinished)` or `Finish`.
- The `InfiniteCountUpTimer` handler queue is a count of pending messages.
- `DateFormat.format` and `SimpleDateFormat.parse` are passed in as functions that return a value or throw.
- A display is recorded as what is handed to the formatter: a `String.format` template with its integer fields, or a timestamp with the format or pattern it is shown in.

Behaviour of the code that a reader might not expect, modelled as written:

- `countDown(future, past, …)` uses the signed `future - past`; the code does not take the magnitude.
- The code validates no configuration: negative durations and non-positive intervals are accepted.
- `countUp(from, to, …)` takes `from - to` as the total, so the documented call, with `from` earlier than `to`, configures a negative total.
- `CountDown.timeLeft` starts at 0 and configuring never resets it, so a countdown paused before its first tick reports the whole total as passed and 0 left.
- The infinite timer reports `startTime + interval·n(n+1)/2` after `n` ticks, not `startTime + n·interval`. `resume` before `start` counts from 0, not from the start time.
- `CountUp.resume` builds a timer for the time left with the never-updated 1000 ms interval. Time passed restarts from 0.
- `InfiniteCountUp` shows `FullDate24` with the `Full` pattern, marker included, exactly like `FullDate`.
- `Full24` is not a 24-hour pattern. It uses `hh`, the 12-hour field, as `Full` does, and only drops the am/pm marker, so 13:00 shows as 01:00.

## Model

| member | source | states |
|---|---|---|
| TimeUnits.Quot | app/src/main/java/com/ppk/dinger/timeutil/CountDown.kt:83-86 | `TimeUnit` conversions divide toward zero: the quotient of a non-negative value is the largest multiple not above it, and of a non-positive value the smallest multiple not below it |
| TimeUnits.Rem | app/src/main/java/com/ppk/dinger/timeutil/CountDown.kt:83-86 | Kotlin `%`: quotient times divisor plus remainder gives the dividend back, and the remainder has the dividend's sign and is smaller than the divisor |
| TimeUnits.ToSeconds | app/src/main/java/com/ppk/dinger/timeutil/CountDown.kt:86 | `toSeconds` counts whole seconds toward zero: for a non-negative input the largest count not above it, for a non-positive one the smallest not below it |
| TimeUnits.ToMinutes | app/src/main/java/com/ppk/dinger/timeutil/CountDown.kt:85 | `toMinutes`: whole minutes, counted toward zero, with the same bounds |
| TimeUnits.ToHours | app/src/main/java/com/ppk/dinger/timeutil/CountDown.kt:84 | `toHours`: whole hours, counted toward zero, with the same bounds |
| TimeUnits.ToDays | app/src/main/java/com/ppk/dinger/timeutil/CountDown.kt:83 | `toDays`: whole days, counted toward zero, with the same bounds |
| TimeUnits.WrapLong | app/src/main/java/com/ppk/dinger/timeutil/TimeUtil.kt:89-91 | `Long` subtraction wraps: the result is a `Long`, congruent to the exact result modulo 2^64, and equal to it when it fits |
| TimeUnits.AbsLong | app/src/main/java/com/ppk/dinger/timeutil/TimeUtil.kt:89-91 | `abs` on `Long` is the non-negative magnitude, except that `abs(Long.MIN_VALUE)` is `Long.MIN_VALUE` |
| TimeUtils.MessageText | app/src/main/java/com/ppk/dinger/timeutil/TimeUtil.kt:64-66 | an exception message renders as itself, and a null message as "null" |
| TimeUtils.Pattern | app/src/main/java/com/ppk/dinger/timeutil/TimeUtil.kt:78-87 | the five fixed formats map to non-empty patterns; `Custom` maps to the stored custom pattern, and throws while it is unset |
| TimeUtils.FixedPatternsIgnoreCustom | app/src/main/java/com/ppk/dinger/timeutil/TimeUtil.kt:79-84 | the pattern of a fixed format does not depend on the stored custom pattern |
| TimeUtils.FullIsFull24WithMarker | app/src/main/java/com/ppk/dinger/timeutil/TimeUtil.kt:80-81 | the `Full` pattern is the `Full24` pattern followed by the am/pm marker |
| TimeUtils.FormatOrMessage | app/src/main/java/com/ppk/dinger/timeutil/TimeUtil.kt:58-67 | the formatted date, or the message of the exception thrown by the pattern lookup or by the formatter |
| TimeUtils.ParseOrZero | app/src/main/java/com/ppk/dinger/timeutil/TimeUtil.kt:32-40 | the parsed time, or 0 when the pattern lookup or the parser throws |
| TimeUtils.TimestampDifference | app/src/main/java/com/ppk/dinger/timeutil/TimeUtil.kt:89-91 | the result is a `Long`; it is the distance between the timestamps when the subtraction does not overflow; it is 0 exactly for equal timestamps; it is negative exactly when the wrapped difference is `Long.MIN_VALUE` |
| TimeUtils.TimestampDifferenceSymmetric | app/src/main/java/com/ppk/dinger/timeutil/TimeUtil.kt:89-91 | swapping future and past never changes the difference, wrap-around included |
| TimeUtils.TimeUtil.constructor | app/src/main/java/com/ppk/dinger/timeutil/TimeUtil.kt:25 | the custom pattern starts unset |
| TimeUtils.TimeUtil.DateToTimestamp | app/src/main/java/com/ppk/dinger/timeutil/TimeUtil.kt:32-40 | parses with the format's pattern and yields 0 on any failure, in particular for `Custom` before a custom pattern was stored |
| TimeUtils.TimeUtil.DateToTimestampCustom | app/src/main/java/com/ppk/dinger/timeutil/TimeUtil.kt:43-52 | stores the custom pattern and parses with it, yielding 0 on failure |
| TimeUtils.TimeUtil.TimestampToDate | app/src/main/java/com/ppk/dinger/timeutil/TimeUtil.kt:58-67 | formats with the format's pattern or returns the exception's message, which for an unset `Custom` pattern is the `lateinit` message |
| TimeUtils.TimeUtil.TimestampToDateCustom | app/src/main/java/com/ppk/dinger/timeutil/TimeUtil.kt:69-76 | stores the custom pattern and formats with it, or returns the formatter's message |
| Callbacks.PlatformTimer.Started | app/src/main/java/com/ppk/dinger/timeutil/CountDown.kt:159-161 | `CountDownTimer.start` sets the timer counting with its duration and interval unchanged |
| Callbacks.PlatformTimer.Halted | app/src/main/java/com/ppk/dinger/timeutil/CountDown.kt:167-175 | `cancel` (or the finish) stops the counting and changes nothing else, so starting a cancelled timer is the same as starting the original |
| CountUpTimers.Translate | app/src/main/java/com/ppk/dinger/timeutil/CountUpTimer.kt:11-18 | a finish becomes onFinishTimer and nothing else does; a tick becomes onTicks with the same remaining time, and time passed plus time remaining is the duration |
| CountUpTimers.PassedWithinDuration | app/src/main/java/com/ppk/dinger/timeutil/CountUpTimer.kt:11-14 | while the remaining time is within the duration, so is the time passed |
| CountUpTimers.PassedTracksRemaining | app/src/main/java/com/ppk/dinger/timeutil/CountUpTimer.kt:11-14 | between two ticks, time passed grows by exactly as much as the remaining time shrinks |
| CountDowns.DayFields | app/src/main/java/com/ppk/dinger/timeutil/CountDown.kt:80-86 | four fields; days within ±23 and the others within ±59; all have the sign of the remaining time |
| CountDowns.HourFields | app/src/main/java/com/ppk/dinger/timeutil/CountDown.kt:100-105 | the hour display is the day display without its day field |
| CountDowns.MinuteFields | app/src/main/java/com/ppk/dinger/timeutil/CountDown.kt:116-120 | the minute display is the hour display without its hour field |
| CountDowns.SecondFields | app/src/main/java/com/ppk/dinger/timeutil/CountDown.kt:131-134 | the second display is the minute display without its minute field |
| CountDowns.CountDownShown | app/src/main/java/com/ppk/dinger/timeutil/CountDown.kt:75-140 | every countdown format shows a clock; its fields are the last 4, 3, 2 or 1 fields of the day display, for days, hours, minutes and seconds |
| CountDowns.HourFieldsReconstruct | app/src/main/java/com/ppk/dinger/timeutil/CountDown.kt:100-105 | below 60 hours, the hour display's fields plus the sub-second milliseconds add back up to the remaining time |
| CountDowns.DayDisplayRepeatsHours | app/src/main/java/com/ppk/dinger/timeutil/CountDown.kt:82-84 | from one day to 60 hours, the day field is at least 1 and the hour field is the whole number of hours, so it counts the day's 24 hours again |
| CountDowns.TwentyFiveHoursShown | app/src/main/java/com/ppk/dinger/timeutil/CountDown.kt:82-86 | 25 hours show as 1 day, 25 hours, 0 minutes and 0 seconds |
| CountDowns.FourSecondsShown | app/src/main/java/com/ppk/dinger/timeutil/CountDown.kt:128-140 | 4000 ms left shows as 4 in the second display |
| CountDowns.CountDown.constructor | app/src/main/java/com/ppk/dinger/timeutil/CountDown.kt:18-23 | no timer; zero total and time left; interval 1000 ms; no events |
| CountDowns.CountDown.CountDownFor | app/src/main/java/com/ppk/dinger/timeutil/CountDown.kt:36-43 | records the duration as total; installs a stopped timer for it with the interval and format's handler |
| CountDowns.CountDown.CountDownBetween | app/src/main/java/com/ppk/dinger/timeutil/CountDown.kt:49-57 | as above, with the signed difference `future - past` as duration |
| CountDowns.CountDown.SetUpCountDownTimer | app/src/main/java/com/ppk/dinger/timeutil/CountDown.kt:59-73 | records the total, then installs the timer with the handler of the chosen format |
| CountDowns.CountDown.SetCountDownTimer | app/src/main/java/com/ppk/dinger/timeutil/CountDown.kt:142-157 | stores handler and interval and replaces the timer with a new stopped one; total, time left and events are untouched |
| CountDowns.CountDown.Deliver | app/src/main/java/com/ppk/dinger/timeutil/CountDown.kt:145-155 | a stopped timer delivers nothing; a tick stores the remaining time and reports it in the handler's display; a finish stops the timer and reports the finish |
| CountDowns.CountDown.Start | app/src/main/java/com/ppk/dinger/timeutil/CountDown.kt:159-161 | the timer starts counting; nothing else changes |
| CountDowns.CountDown.Resume | app/src/main/java/com/ppk/dinger/timeutil/CountDown.kt:163-165 | a new stopped timer for the time left with the same interval and handler; the total is kept |
| CountDowns.CountDown.Pause | app/src/main/java/com/ppk/dinger/timeutil/CountDown.kt:167-170 | cancels the timer and reports (total − left, left), whose sum is the total |
| CountDowns.CountDown.Stop | app/src/main/java/com/ppk/dinger/timeutil/CountDown.kt:172-175 | cancels the timer and reports the finish |
| CountDowns.TickPauseResume | app/src/main/java/com/ppk/dinger/timeutil/CountDown.kt:142-170 | a 5000 ms countdown at 1000 ms in seconds: one tick at 4000 shows 4, the pause reports 1000 passed and 4000 left, and the resumed timer is a stopped 4000 ms timer at 1000 ms |
| CountUps.ElapsedClockFields | app/src/main/java/com/ppk/dinger/timeutil/CountUp.kt:63-106 | the minute, hour and day displays have 2, 3 and 4 fields, and every field is 0 for every input, because `% 60` and `% 24` come before the unit conversion |
| CountUps.ElapsedTemplate | app/src/main/java/com/ppk/dinger/timeutil/CountUp.kt:63-106 | the minute and hour templates are the countdown's; the day template is `"%02d Days "` followed by the hour template, one character longer than the countdown's day template |
| CountUps.CountUpShown | app/src/main/java/com/ppk/dinger/timeutil/CountUp.kt:63-139 | clock formats show all-zero fields; `FullDate`, `FullDate24` and `Custom` show `from + passed` as a date with `Full`, with `Full24` and with the custom pattern |
| CountUps.CountUp.constructor | app/src/main/java/com/ppk/dinger/timeutil/CountUp.kt:23-30 | no timer; zero start, total, time left and time passed; interval 1000 ms; no events |
| CountUps.CountUp.CountUpWith | app/src/main/java/com/ppk/dinger/timeutil/CountUp.kt:37-42 | stores `from`; installs a stopped timer for `from - to` with the format's handler, and that is the total |
| CountUps.CountUp.CountUpCustom | app/src/main/java/com/ppk/dinger/timeutil/CountUp.kt:44-50 | as above, storing the custom pattern and choosing `Custom` |
| CountUps.CountUp.SetUpTimer | app/src/main/java/com/ppk/dinger/timeutil/CountUp.kt:52-61 | installs the timer with the handler of the chosen format |
| CountUps.CountUp.SetCountUpTimer | app/src/main/java/com/ppk/dinger/timeutil/CountUp.kt:141-155 | stores handler and total and replaces the timer with a new stopped one; the interval field is not changed |
| CountUps.CountUp.Deliver | app/src/main/java/com/ppk/dinger/timeutil/CountUp.kt:144-154 | a stopped timer delivers nothing; a tick stores time left and time passed, which add up to the total, and reports the time passed in the handler's display; a finish stops the timer and reports the finish |
| CountUps.CountUp.Start | app/src/main/java/com/ppk/dinger/timeutil/CountUp.kt:157-159 | the timer starts counting; nothing else changes |
| CountUps.CountUp.Resume | app/src/main/java/com/ppk/dinger/timeutil/CountUp.kt:161-163 | a new stopped timer for the time left at 1000 ms; the total becomes the time left |
| CountUps.CountUp.Pause | app/src/main/java/com/ppk/dinger/timeutil/CountUp.kt:165-168 | cancels the timer and reports (passed, left); after a tick their sum is the total |
| CountUps.CountUp.Stop | app/src/main/java/com/ppk/dinger/timeutil/CountUp.kt:170-173 | cancels the timer and reports the finish |
| CountUps.ResumeRestartsPassedTime | app/src/main/java/com/ppk/dinger/timeutil/CountUp.kt:141-168 | a 3000 ms count-up at 500 ms is paused at (2000, 1000); the resumed timer is 1000 ms at 1000 ms, and its first tick reports 500 ms passed |
| InfiniteTimers.Step | app/src/main/java/com/ppk/dinger/timeutil/InfiniteCountUpTimer.kt:55-56 | a running tick adds the interval to timePassed and grows resumeTime by the new timePassed; with a positive interval and non-negative timePassed, both grow strictly |
| InfiniteTimers.Steps | app/src/main/java/com/ppk/dinger/timeutil/InfiniteCountUpTimer.kt:51-63 | after n running ticks in a row, timePassed has grown by n intervals |
| InfiniteTimers.Emitted | app/src/main/java/com/ppk/dinger/timeutil/InfiniteCountUpTimer.kt:51-63 | n running ticks report n values, and the i-th is resumeTime after i+1 steps |
| InfiniteTimers.StepsClosedForm | app/src/main/java/com/ppk/dinger/timeutil/InfiniteCountUpTimer.kt:53-57 | after n running ticks, resumeTime has grown by n·timePassed₀ + interval·n(n+1)/2 |
| InfiniteTimers.FreshClosedForm | app/src/main/java/com/ppk/dinger/timeutil/InfiniteCountUpTimer.kt:32-63 | from a fresh start, the n-th tick reports startTime + interval·n(n+1)/2 |
| InfiniteTimers.EmittedIncreasing | app/src/main/java/com/ppk/dinger/timeutil/InfiniteCountUpTimer.kt:51-63 | with a positive interval, the reported values strictly increase |
| InfiniteTimers.ResumeTimeLeavesLongRange | app/src/main/java/com/ppk/dinger/timeutil/InfiniteCountUpTimer.kt:13-14 | from 0 at 1000 ms, tick 136000000 reports more than `Long.MAX_VALUE` |
| InfiniteTimers.InfiniteCountUpTimer.constructor | app/src/main/java/com/ppk/dinger/timeutil/InfiniteCountUpTimer.kt:7-16 | not stopped; zero resumeTime and timePassed; nothing queued or reported |
| InfiniteTimers.InfiniteCountUpTimer.Stop | app/src/main/java/com/ppk/dinger/timeutil/InfiniteCountUpTimer.kt:22-26 | stops, reports the finish and empties the queue |
| InfiniteTimers.InfiniteCountUpTimer.Start | app/src/main/java/com/ppk/dinger/timeutil/InfiniteCountUpTimer.kt:32-36 | runs again with resumeTime reset to startTime and timePassed kept; queues one message |
| InfiniteTimers.InfiniteCountUpTimer.Pause | app/src/main/java/com/ppk/dinger/timeutil/InfiniteCountUpTimer.kt:38-42 | stops, reports the current resumeTime and empties the queue |
| InfiniteTimers.InfiniteCountUpTimer.Resume | app/src/main/java/com/ppk/dinger/timeutil/InfiniteCountUpTimer.kt:44-47 | runs again with the accumulated values untouched; queues one message |
| InfiniteTimers.InfiniteCountUpTimer.HandleMessage | app/src/main/java/com/ppk/dinger/timeutil/InfiniteCountUpTimer.kt:51-63 | consumes a message; while stopped nothing else happens; otherwise the progress takes one step, the new resumeTime is reported, the next message is queued, and timePassed stays interval × ticks |
| InfiniteTimers.StartAndHandle | app/src/main/java/com/ppk/dinger/timeutil/InfiniteCountUpTimer.kt:32-63 | a fresh timer started and handed n messages reports exactly the `Emitted` values, ending at startTime + interval·n(n+1)/2 with timePassed n·interval and one message queued |
| InfiniteCountUps.InfiniteShown | app/src/main/java/com/ppk/dinger/timeutil/InfiniteCountUp.kt:65-129 | clock formats show all-zero fields; `Custom` shows the reported value itself as a date with the custom pattern |
| InfiniteCountUps.FullDate24ShownAsFullDate | app/src/main/java/com/ppk/dinger/timeutil/InfiniteCountUp.kt:107-121 | `FullDate24` shows exactly what `FullDate` shows: the value with the `Full` pattern, am/pm marker included. CountUp's `FullDate24` uses `Full24`, the same pattern without the marker |
| InfiniteCountUps.Forward | app/src/main/java/com/ppk/dinger/timeutil/InfiniteCountUp.kt:131-146 | each timer callback becomes the owner callback of the same kind with the same value; a tick is shown in the chosen format |
| InfiniteCountUps.InfiniteCountUp.constructor | app/src/main/java/com/ppk/dinger/timeutil/InfiniteCountUp.kt:14-19 | no inner timer; zero start and interval; no events |
| InfiniteCountUps.InfiniteCountUp.InfiniteCountUpFromZero | app/src/main/java/com/ppk/dinger/timeutil/InfiniteCountUp.kt:25-28 | configures counting from 0: a fresh inner timer, not stopped, with zero resumeTime and timePassed and nothing queued or reported |
| InfiniteCountUps.InfiniteCountUp.InfiniteCountUpFrom | app/src/main/java/com/ppk/dinger/timeutil/InfiniteCountUp.kt:34-43 | stores start and interval and installs a fresh inner timer over them with the format's handler; that timer is not stopped, has zero resumeTime and timePassed, and has nothing queued or reported |
| InfiniteCountUps.InfiniteCountUp.InfiniteCountUpCustom | app/src/main/java/com/ppk/dinger/timeutil/InfiniteCountUp.kt:45-51 | as above, storing the custom pattern and choosing `Custom`; the fresh inner timer is not stopped, has zero resumeTime and timePassed, and has nothing queued or reported |
| InfiniteCountUps.InfiniteCountUp.SetUpTimer | app/src/main/java/com/ppk/dinger/timeutil/InfiniteCountUp.kt:53-62 | installs a fresh inner timer with the handler of the chosen format; not stopped, zero resumeTime and timePassed, nothing queued or reported |
| InfiniteCountUps.InfiniteCountUp.RunTimer | app/src/main/java/com/ppk/dinger/timeutil/InfiniteCountUp.kt:131-146 | stores the handler and builds a fresh inner timer over the start time and the stored interval; not stopped, zero resumeTime and timePassed, nothing queued or reported |
| InfiniteCountUps.InfiniteCountUp.Start | app/src/main/java/com/ppk/dinger/timeutil/InfiniteCountUp.kt:148-150 | passed to the inner timer: it runs from startTime and one message is queued; nothing is reported |
| InfiniteCountUps.InfiniteCountUp.Resume | app/src/main/java/com/ppk/dinger/timeutil/InfiniteCountUp.kt:152-154 | passed to the inner timer: it runs from where it stood and one message is queued; nothing is reported |
| InfiniteCountUps.InfiniteCountUp.Pause | app/src/main/java/com/ppk/dinger/timeutil/InfiniteCountUp.kt:156-158 | the inner timer stops with nothing queued, and the owner is told the inner timer's resumeTime, which after a `start` is the start time until the next tick, not the last value reported before that `start` |
| InfiniteCountUps.InfiniteCountUp.Stop | app/src/main/java/com/ppk/dinger/timeutil/InfiniteCountUp.kt:160-162 | the inner timer stops with nothing queued, and the owner is told of the finish |
| InfiniteCountUps.InfiniteCountUp.HandleMessage | app/src/main/java/com/ppk/dinger/timeutil/InfiniteCountUp.kt:133-136 | a running tick of the inner timer reaches onTicked with its value shown in the chosen format; a stopped one reaches nothing |
| InfiniteCountUps.QuadraticReports | app/src/main/java/com/ppk/dinger/timeutil/InfiniteCountUpTimer.kt:51-63 | from 1600000000000 at 1000 ms, three ticks report 1000, 3000 and 6000 ms past the start |
| InfiniteCountUps.ResumeBeforeStartIgnoresStartTime | app/src/main/java/com/ppk/dinger/timeutil/InfiniteCountUpTimer.kt:13-16 | configured from 5000 at 1000 ms, `resume` without `start` makes the first tick report 1000, because only `start` sets resumeTime to the start point |
| InfiniteCountUps.PauseResumeCarriesOn | app/src/main/java/com/ppk/dinger/timeutil/InfiniteCountUpTimer.kt:38-63 | from 0 at 1000 ms: two ticks, a pause at 3000, a resume whose tick reports 6000, and a stop that leaves nothing queued |

## Left out

- Rendering: `String.format` and `DateFormat.format` text is not produced. A display is recorded as the template with its fields, or as the timestamp with its pattern.
- Parsing: the formatter and the parser are foreign code. They are parameters that return a value or throw.
- Time: the platform's real-time scheduling of ticks is not modelled. Deliveries are explicit `Deliver` and `HandleMessage` calls, in any order their preconditions allow.
- Integer width: `Long` overflow is modelled only in `timestampDifference`. The other arithmetic is on unbounded integers. For the bounded timers, realistic timestamps and durations do not overflow.
- InfiniteTimers.Step: does not model the `Long` wrap of `timePassed` and `resumeTime`. Since resumeTime grows as `interval·n(n+1)/2`, it passes `Long.MAX_VALUE` after about √(2^64 / interval) ticks: about 50 days of running at 1 ms, 157 days at 10 ms and 4.3 years at 1000 ms (`ResumeTimeLeavesLongRange`). From there Kotlin reports negative values and the model keeps counting up.
- InfiniteTimers.InfiniteCountUpTimer.HandleMessage: takes a `Step` on unbounded integers, so it inherits the unmodelled `Long` wrap described for InfiniteTimers.Step.
- Concurrency: `@Synchronized` and the handler's `synchronized` block are not modelled; every operation is atomic.
- CountDowns.CountDown.Resume: a timer replaced by `resume` or by reconfiguring without cancelling is dropped, although the platform would keep it counting.
- CountUps.CountUp.Resume: the timer it replaces without cancelling is dropped, although the platform would keep it counting and reporting.
- CountUps.CountUp.SetCountUpTimer: a running timer replaced by reconfiguring (`countUp` on a running CountUp) is dropped, although the platform keeps it counting, writing `timeLeft` and `passedTime`, reporting ticks in the old format and finally the finish, out of reach of `pause` and `stop`.
- InfiniteCountUps.InfiniteCountUp.RunTimer: reconfiguring replaces the inner timer without stopping the old one. In Kotlin a running old timer still has a message queued and is not stopped, so it keeps calling `onTicked` in the old format, and `pause` and `stop` can no longer reach it. The model drops that timer and its ticks.
- CountUps.CountUp.Deliver: requires the custom pattern to be set when the handler is `Custom`. Choosing `Custom` through the enum overload without ever setting the pattern makes the Kotlin tick throw; that throw is not modelled.
- InfiniteCountUps.InfiniteCountUp.HandleMessage: requires the custom pattern to be set when the handler is `Custom`; the throw of a `Custom` tick whose pattern was never set is not modelled.
- CountUps.CountUpShown: a `Custom` tick's call to `timestampToDate(…, customFormat)` also stores that pattern in the `TimeUtil` singleton; the model records the display but not that store.
- InfiniteCountUps.InfiniteShown: a `Custom` tick also stores its pattern in the `TimeUtil` singleton; the model records the display but not that store.
- TimeUtil's unused fields (`countDownTimer`, `totalCountDownTime`, `timeLeft`, `interval`, `onTick`) and its empty `dateDifference`, `timestampDifferenceInDate` and `lastSeen` functions are not modelled; they hold and do nothing.
- The unused fields `CountDown.customFormat`, `InfiniteCountUpTimer.timeLeft` and `InfiniteCountUp.timePassed` are not modelled.
- The `OnTick` interface is represented by the format that selects the handler.
