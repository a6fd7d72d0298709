/**
 * InfiniteCountUpTimer: an unbounded count-up driven by a message handler. Each
 * handled message, unless the timer is stopped, adds the interval to timePassed,
 * adds the new timePassed to resumeTime, reports resumeTime and queues the next
 * message. The reported value therefore grows quadratically with the tick count.
 */
module InfiniteTimers {

  import opened TimeUnits

  /** The three abstract callbacks the timer makes on its owner. */
  datatype Upcall = OnTick(passedTime: int) | OnFinish | OnPause(passedTime: int)

  /** The accumulating part of the timer's state. */
  datatype Progress = Progress(timePassed: int, resumeTime: int)

  /**
   * One running tick: timePassed += interval, then resumeTime += timePassed. The
   * reported value grows by the new timePassed, so with a positive interval and a
   * non-negative timePassed both grow strictly.
   */
  function Step(p: Progress, interval: int): (r: Progress)
    ensures r.timePassed - p.timePassed == interval
    ensures r.resumeTime - p.resumeTime == r.timePassed
    ensures interval > 0 && p.timePassed >= 0 ==> r.timePassed > 0 && r.resumeTime > p.resumeTime
  {
    var passed := p.timePassed + interval;
    Progress(passed, p.resumeTime + passed)
  }

  /** The progress after n running ticks in a row: timePassed has grown by n intervals. */
  function Steps(p: Progress, interval: int, n: nat): (r: Progress)
    ensures r.timePassed == p.timePassed + n * interval
  {
    if n == 0 then p else Step(Steps(p, interval, n - 1), interval)
  }

  /** The values reported by n running ticks in a row. */
  function Emitted(p: Progress, interval: int, n: nat): (vs: seq<int>)
    ensures |vs| == n
    ensures forall i :: 0 <= i < n ==> vs[i] == Steps(p, interval, i + 1).resumeTime
  {
    if n == 0 then [] else Emitted(p, interval, n - 1) + [Steps(p, interval, n).resumeTime]
  }

  /**
   * After n running ticks resumeTime has grown by n times the initial timePassed
   * plus interval * n(n+1)/2.
   */
  lemma {:induction false} StepsClosedForm(p: Progress, interval: int, n: nat)
    ensures 2 * (Steps(p, interval, n).resumeTime - p.resumeTime)
         == 2 * n * p.timePassed + interval * (n * (n + 1))
  {
    if n > 0 {
      var m := n - 1;
      StepsClosedForm(p, interval, m);
      var q := Steps(p, interval, m);
      var r := Steps(p, interval, n);
      assert r == Step(q, interval);
      Distribute(interval, m, 1);
      assert r.timePassed == p.timePassed + n * interval;
      // 2 * (r - p) = 2 * (q - p) + 2 * r.timePassed
      assert 2 * (r.resumeTime - p.resumeTime) == 2 * m * p.timePassed + interval * (m * n) + 2 * p.timePassed + 2 * (n * interval);
      Distribute(2, m, 1);
      Distribute(p.timePassed, 2 * m, 2);
      assert 2 * m * p.timePassed + 2 * p.timePassed == 2 * n * p.timePassed;
      Distribute(n, m, 2);
      assert m * n + 2 * n == n * (n + 1);
      Distribute(interval, m * n, 2 * n);
      assert interval * (m * n) + 2 * (n * interval) == interval * (n * (n + 1));
    }
  }

  lemma Distribute(a: int, b: int, c: int)
    ensures a * (b + c) == a * b + a * c
    ensures (b + c) * a == b * a + c * a
  {
  }

  /**
   * On a fresh timer started at startTime: n ticks bring timePassed to n * interval
   * and report startTime + interval * n(n+1)/2.
   */
  lemma FreshClosedForm(startTime: int, interval: int, n: nat)
    ensures Steps(Progress(0, startTime), interval, n).timePassed == n * interval
    ensures Steps(Progress(0, startTime), interval, n).resumeTime == startTime + interval * (n * (n + 1) / 2)
  {
    StepsClosedForm(Progress(0, startTime), interval, n);
    var r := Steps(Progress(0, startTime), interval, n).resumeTime;
    var prod := n * (n + 1);
    assert 2 * (r - startTime) == interval * prod;
    EvenProduct(n);
    var t := prod / 2;
    assert prod == 2 * t;
    assert interval * prod == 2 * (interval * t);
  }

  lemma {:induction false} EvenProduct(n: nat)
    ensures n * (n + 1) % 2 == 0
  {
    if n > 0 {
      EvenProduct(n - 1);
      Distribute(n, n - 1, 2);
      assert n * (n + 1) == (n - 1) * n + 2 * n;
    }
  }

  /**
   * The reported value leaves the `Long` range long before the count would end in
   * practice: from 0 at 1000 ms, tick 136000000 (about 4.3 years in) reports more
   * than Long.MAX_VALUE, where Kotlin's `Long` would wrap to a negative value.
   */
  lemma ResumeTimeLeavesLongRange()
    ensures Steps(Progress(0, 0), 1000, 136000000).resumeTime > LONG_MAX
  {
    FreshClosedForm(0, 1000, 136000000);
  }

  /**
   * With a positive interval and a non-negative starting timePassed, the reported
   * values strictly increase.
   */
  lemma {:induction false} EmittedIncreasing(p: Progress, interval: int, n: nat)
    requires interval > 0 && p.timePassed >= 0
    ensures forall j, k :: 0 <= j < k < n ==> Emitted(p, interval, n)[j] < Emitted(p, interval, n)[k]
  {
    if n > 1 {
      EmittedIncreasing(p, interval, n - 1);
      var vs := Emitted(p, interval, n);
      var prev := Emitted(p, interval, n - 1);
      assert vs == prev + [Steps(p, interval, n).resumeTime];
      StepsClosedForm(p, interval, n - 1);
      var q := Steps(p, interval, n - 1);
      assert prev[n - 2] == q.resumeTime by {
        assert prev == Emitted(p, interval, n - 2) + [q.resumeTime];
      }
      assert q.timePassed >= 0 by {
        assert (n - 1) * interval >= 0;
      }
      assert vs[n - 1] > vs[n - 2];
      forall j, k | 0 <= j < k < n
        ensures vs[j] < vs[k]
      {
        if k < n - 1 {
          assert vs[j] == prev[j] && vs[k] == prev[k];
        } else if j < n - 2 {
          assert vs[j] == prev[j] && prev[j] < prev[n - 2];
        }
      }
    }
  }

  class InfiniteCountUpTimer {

    const startTime: int
    const interval: int
    var isStopped: bool
    var resumeTime: int
    var timePassed: int
    /** The number of tick messages waiting in the handler's queue. */
    var queued: nat
    /** The callbacks made on the owner so far. */
    var upcalls: seq<Upcall>
    /** The number of running ticks handled since construction. */
    ghost var ticks: nat

    /** timePassed is never reset: it is always the interval times the ticks handled. */
    ghost predicate Valid()
      reads this
    {
      timePassed == ticks * interval
    }

    constructor (startTime: int, interval: int)
      ensures Valid()
      ensures this.startTime == startTime && this.interval == interval
      ensures !isStopped && resumeTime == 0 && timePassed == 0 && queued == 0 && upcalls == [] && ticks == 0
    {
      this.startTime := startTime;
      this.interval := interval;
      isStopped := false;
      resumeTime := 0;
      timePassed := 0;
      queued := 0;
      upcalls := [];
      ticks := 0;
    }

    /** Stops, reports the finish and removes every queued message. */
    method Stop()
      requires Valid()
      modifies this
      ensures Valid()
      ensures isStopped && queued == 0 && upcalls == old(upcalls) + [OnFinish]
      ensures resumeTime == old(resumeTime) && timePassed == old(timePassed) && ticks == old(ticks)
    {
      isStopped := true;
      upcalls := upcalls + [OnFinish];
      queued := 0;
    }

    /** Restarts the reported value at startTime and queues a message; timePassed is kept. */
    method Start()
      requires Valid()
      modifies this
      ensures Valid()
      ensures !isStopped && resumeTime == startTime && queued == old(queued) + 1
      ensures timePassed == old(timePassed) && ticks == old(ticks) && upcalls == old(upcalls)
    {
      isStopped := false;
      resumeTime := startTime;
      queued := queued + 1;
    }

    /** Stops, reports the current value and removes every queued message. */
    method Pause()
      requires Valid()
      modifies this
      ensures Valid()
      ensures isStopped && queued == 0 && upcalls == old(upcalls) + [OnPause(resumeTime)]
      ensures resumeTime == old(resumeTime) && timePassed == old(timePassed) && ticks == old(ticks)
    {
      isStopped := true;
      upcalls := upcalls + [OnPause(resumeTime)];
      queued := 0;
    }

    /** Clears the stop flag and queues a message; the accumulated values are untouched. */
    method Resume()
      requires Valid()
      modifies this
      ensures Valid()
      ensures !isStopped && queued == old(queued) + 1
      ensures resumeTime == old(resumeTime) && timePassed == old(timePassed) && ticks == old(ticks)
      ensures upcalls == old(upcalls)
    {
      isStopped := false;
      queued := queued + 1;
    }

    /**
     * handleMessage: consumes one queued message. While stopped nothing else happens;
     * otherwise the progress takes one Step, the new resumeTime is reported and the
     * next message is queued.
     */
    method HandleMessage()
      requires Valid() && queued > 0
      modifies this
      ensures Valid()
      ensures isStopped == old(isStopped)
      ensures old(isStopped) ==>
        && queued == old(queued) - 1 && upcalls == old(upcalls)
        && resumeTime == old(resumeTime) && timePassed == old(timePassed)
      ensures !old(isStopped) ==>
        && Progress(timePassed, resumeTime) == Step(Progress(old(timePassed), old(resumeTime)), interval)
        && ticks == old(ticks) + 1
        && upcalls == old(upcalls) + [OnTick(resumeTime)]
        && queued == old(queued)
    {
      queued := queued - 1;
      if isStopped {
        return;
      }
      timePassed := timePassed + interval;
      resumeTime := resumeTime + timePassed;
      ticks := ticks + 1;
      upcalls := upcalls + [OnTick(resumeTime)];
      queued := queued + 1;
    }
  }

  /**
   * A fresh timer started and then handed n messages: the reports are exactly the
   * values Emitted from (0, startTime), the last of them startTime + interval * n(n+1)/2,
   * and one message is still queued.
   */
  method StartAndHandle(startTime: int, interval: int, n: nat) returns (t: InfiniteCountUpTimer)
    ensures t.Valid() && !t.isStopped && t.queued == 1
    ensures |t.upcalls| == n
    ensures forall i :: 0 <= i < n ==> t.upcalls[i] == OnTick(Emitted(Progress(0, startTime), interval, n)[i])
    ensures t.timePassed == n * interval
    ensures t.resumeTime == startTime + interval * (n * (n + 1) / 2)
  {
    t := new InfiniteCountUpTimer(startTime, interval);
    t.Start();
    var k := 0;
    while k < n
      invariant 0 <= k <= n
      invariant t.Valid() && !t.isStopped && t.queued == 1
      invariant t.startTime == startTime && t.interval == interval
      invariant Progress(t.timePassed, t.resumeTime) == Steps(Progress(0, startTime), interval, k)
      invariant |t.upcalls| == k
      invariant forall i :: 0 <= i < k ==> t.upcalls[i] == OnTick(Steps(Progress(0, startTime), interval, i + 1).resumeTime)
    {
      t.HandleMessage();
      k := k + 1;
    }
    FreshClosedForm(startTime, interval, n);
  }
}
