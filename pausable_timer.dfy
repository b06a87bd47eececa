/**
 * PausableCountDownTimer: a single-shot countdown that can be paused and resumed.
 *
 * The wall clock (SystemClock.elapsedRealtime) is an explicit `now` argument, and the
 * android.os.CountDownTimer it wraps is a CountDownHandle object whose completion is the
 * explicit Fire step.  The first half of the module is a pure transition system over
 * TimerState; the class below is proved to follow it step by step.
 */
module PausableTimer {

  /** The fields of one timer that its operations read and write. */
  datatype TimerState = TimerState(
    timeLeft: int,
    startTime: int,
    running: bool,
    paused: bool,
    finished: bool)

  /** The operations a client or the Android timer can perform; Fire is the inner timer's onFinish. */
  datatype TimerOp = Start(now: int) | Pause(now: int) | Resume(now: int) | Cancel | Fire

  /** A state after one or more operations, with the number of onFinish invocations they made. */
  datatype Outcome = Outcome(state: TimerState, finishes: nat)

  /** A timer as constructed: the whole duration left, nothing running. */
  function Initial(total: int): TimerState
  {
    TimerState(total, 0, false, false, false)
  }

  /** The state left by finishInternal. */
  function Finished(s: TimerState): TimerState
  {
    s.(timeLeft := 0, running := false, paused := false, finished := true)
  }

  /** The state left by cancelInternal(resetTime). */
  function Cancelled(s: TimerState, total: int, resetTime: bool): TimerState
  {
    s.(running := false, paused := false, startTime := 0,
       timeLeft := if resetTime then total else s.timeLeft)
  }

  /** createAndStartTimer(duration) at time `now`: a non-positive duration finishes at once. */
  function Started(s: TimerState, duration: int, now: int): Outcome
  {
    if duration <= 0 then Outcome(Finished(s), 1)
    else Outcome(s.(startTime := now, running := true, paused := false), 0)
  }

  /** One operation of a timer whose full duration is `total`. */
  function Step(total: int, s: TimerState, op: TimerOp): Outcome
  {
    match op
    case Start(now) =>
      Started(Cancelled(s, total, true).(timeLeft := total), total, now)
    case Pause(now) =>
      if !s.running then Outcome(s, 0)
      else
        var left := s.timeLeft - (now - s.startTime);
        var stopped := s.(timeLeft := left, running := false);
        if left <= 0 then Outcome(Finished(stopped), 1)
        else Outcome(stopped.(paused := true), 0)
    case Resume(now) =>
      if !s.paused || s.running || s.timeLeft <= 0 then Outcome(s, 0)
      else
        var o := Started(s, s.timeLeft, now);
        Outcome(o.state.(running := true, paused := false), o.finishes)
    case Cancel =>
      Outcome(Cancelled(s, total, false), 0)
    case Fire =>
      // The inner timer exists exactly while the wrapper is running; without it nothing fires.
      if s.running then Outcome(Finished(s), 1) else Outcome(s, 0)
  }

  /** A sequence of operations, counting every onFinish invocation. */
  function Run(total: int, s: TimerState, ops: seq<TimerOp>): Outcome
    decreases |ops|
  {
    if ops == [] then Outcome(s, 0)
    else
      var first := Step(total, s, ops[0]);
      var rest := Run(total, first.state, ops[1..]);
      Outcome(rest.state, first.finishes + rest.finishes)
  }

  /** Never both running and paused; a running or paused timer has time left. */
  ghost predicate Inv(s: TimerState)
  {
    && !(s.running && s.paused)
    && (s.running ==> s.timeLeft > 0)
    && (s.paused ==> s.timeLeft > 0)
  }

  /** Neither running nor paused: no countdown is in progress. */
  predicate Idle(s: TimerState)
  {
    !s.running && !s.paused
  }

  function Starts(ops: seq<TimerOp>): nat
  {
    if ops == [] then 0 else (if ops[0].Start? then 1 else 0) + Starts(ops[1..])
  }

  lemma StepKeepsInv(total: int, s: TimerState, op: TimerOp)
    requires Inv(s)
    ensures Inv(Step(total, s, op).state)
  {
  }

  /** Every operation sequence keeps Inv; in particular running and paused are never both set. */
  lemma {:induction false} RunKeepsInv(total: int, s: TimerState, ops: seq<TimerOp>)
    requires Inv(s)
    ensures Inv(Run(total, s, ops).state)
    decreases |ops|
  {
    if ops != [] {
      StepKeepsInv(total, s, ops[0]);
      RunKeepsInv(total, Step(total, s, ops[0]).state, ops[1..]);
    }
  }

  /** isFinished is never cleared, not even by start() or cancel(). */
  lemma {:induction false} FinishedIsMonotone(total: int, s: TimerState, ops: seq<TimerOp>)
    requires s.finished
    ensures Run(total, s, ops).state.finished
    decreases |ops|
  {
    if ops != [] {
      FinishedIsMonotone(total, Step(total, s, ops[0]).state, ops[1..]);
    }
  }

  /**
   * An idle timer (cancelled, finished or never started) stays idle and never invokes
   * onFinish until it is started again: pause() needs a running timer, resume() a paused one.
   */
  lemma {:induction false} IdleTimerStaysQuiet(total: int, s: TimerState, ops: seq<TimerOp>)
    requires Idle(s) && Starts(ops) == 0
    ensures Run(total, s, ops).finishes == 0 && Idle(Run(total, s, ops).state)
    decreases |ops|
  {
    if ops != [] {
      IdleTimerStaysQuiet(total, Step(total, s, ops[0]).state, ops[1..]);
    }
  }

  /** onFinish runs at most once per start(), plus once for a countdown already in progress. */
  lemma {:induction false} FinishesBoundedByStarts(total: int, s: TimerState, ops: seq<TimerOp>)
    ensures Run(total, s, ops).finishes <= (if Idle(s) then 0 else 1) + Starts(ops)
    decreases |ops|
  {
    if ops != [] {
      var first := Step(total, s, ops[0]);
      FinishesBoundedByStarts(total, first.state, ops[1..]);
      assert first.finishes == 1 ==> Idle(first.state);
      assert !ops[0].Start? && Idle(s) ==> first.finishes == 0 && Idle(first.state);
    }
  }

  /** start(200) then an immediate finish of the inner timer: onFinish once, nothing left. */
  lemma StartThenFinish(total: int, t0: int)
    requires total > 0
    ensures var o := Run(total, Initial(total), [Start(t0), Fire]);
      o.finishes == 1 && Idle(o.state) && o.state.timeLeft == 0 && o.state.finished
  {
    var s1 := Step(total, Initial(total), Start(t0)).state;
    assert [Start(t0), Fire][1..] == [Fire];
    assert Run(total, s1, [Fire]) == Outcome(Finished(s1), 1);
  }

  /** Pausing before the deadline keeps the unused time, and a resumed timer still finishes once. */
  lemma PauseResumeFinishOnce(total: int, t0: int, t1: int, t2: int)
    requires 0 <= t1 - t0 < total
    ensures var o := Run(total, Initial(total), [Start(t0), Pause(t1)]);
      o.finishes == 0 && o.state.paused && !o.state.running
      && o.state.timeLeft == total - (t1 - t0) && 0 < o.state.timeLeft <= total
    ensures var o := Run(total, Initial(total), [Start(t0), Pause(t1), Resume(t2), Fire]);
      o.finishes == 1 && Idle(o.state) && o.state.timeLeft == 0
  {
    var s1 := Step(total, Initial(total), Start(t0)).state;
    var s2 := Step(total, s1, Pause(t1)).state;
    var s3 := Step(total, s2, Resume(t2)).state;
    assert [Start(t0), Pause(t1)][1..] == [Pause(t1)];
    assert Run(total, s1, [Pause(t1)]) == Outcome(s2, 0);
    assert [Start(t0), Pause(t1), Resume(t2), Fire][1..] == [Pause(t1), Resume(t2), Fire];
    assert [Pause(t1), Resume(t2), Fire][1..] == [Resume(t2), Fire];
    assert [Resume(t2), Fire][1..] == [Fire];
    assert Run(total, s3, [Fire]) == Outcome(Finished(s3), 1);
    assert Run(total, s2, [Resume(t2), Fire]) == Outcome(Finished(s3), 1);
    assert Run(total, s1, [Pause(t1), Resume(t2), Fire]) == Outcome(Finished(s3), 1);
  }

  /** Pausing after the deadline has passed finishes the timer there and then. */
  lemma LatePauseFinishes(total: int, t0: int, t1: int)
    requires total > 0 && t1 - t0 >= total
    ensures var o := Run(total, Initial(total), [Start(t0), Pause(t1)]);
      o.finishes == 1 && o.state.finished && Idle(o.state) && o.state.timeLeft == 0
  {
    var s1 := Step(total, Initial(total), Start(t0)).state;
    assert [Start(t0), Pause(t1)][1..] == [Pause(t1)];
    assert Run(total, s1, [Pause(t1)]) == Step(total, s1, Pause(t1));
  }

  /** cancel() right after start() never invokes onFinish, whatever follows short of a new start(). */
  lemma {:induction false} CancelNeverFinishes(total: int, s: TimerState, ops: seq<TimerOp>)
    requires Starts(ops) == 0
    ensures Run(total, s, [Cancel] + ops).finishes == 0
    ensures Run(total, s, [Cancel]).state.timeLeft == s.timeLeft
  {
    assert ([Cancel] + ops)[1..] == ops;
    IdleTimerStaysQuiet(total, Cancelled(s, total, false), ops);
  }

  /** The android.os.CountDownTimer instance owned by the wrapper while it runs. */
  class CountDownHandle {
    const durationMillis: int

    constructor (durationMillis: int)
      ensures this.durationMillis == durationMillis
    {
      this.durationMillis := durationMillis;
    }
  }

  class PausableCountDownTimer {
    const totalDurationMillis: int
    var timer: CountDownHandle?
    var startTimeMillis: int
    var timeLeftMillis: int
    var isRunning: bool
    var isPaused: bool
    var isFinished: bool
    /** How many times onFinish has been invoked. */
    ghost var finishCount: nat

    ghost function State(): TimerState
      reads this
    {
      TimerState(timeLeftMillis, startTimeMillis, isRunning, isPaused, isFinished)
    }

    ghost predicate Valid()
      reads this
    {
      && Inv(State())
      && (timer != null <==> isRunning)
      && (timer != null ==> timer.durationMillis == timeLeftMillis)
    }

    constructor (totalDurationMillis: int)
      ensures Valid()
      ensures this.totalDurationMillis == totalDurationMillis
      ensures State() == Initial(totalDurationMillis) && timer == null && finishCount == 0
    {
      this.totalDurationMillis := totalDurationMillis;
      timer := null;
      startTimeMillis := 0;
      timeLeftMillis := totalDurationMillis;
      isRunning, isPaused, isFinished := false, false, false;
      finishCount := 0;
    }

    /** Starts or restarts the countdown from the full duration. */
    method Start(now: int)
      requires Valid()
      modifies this
      ensures Valid()
      ensures State() == Step(totalDurationMillis, old(State()), TimerOp.Start(now)).state
      ensures finishCount == old(finishCount) + Step(totalDurationMillis, old(State()), TimerOp.Start(now)).finishes
      ensures totalDurationMillis > 0 ==>
        timeLeftMillis == totalDurationMillis && startTimeMillis == now && isRunning && !isPaused
        && fresh(timer) && finishCount == old(finishCount) && isFinished == old(isFinished)
      ensures totalDurationMillis <= 0 ==>
        timeLeftMillis == 0 && isFinished && !isRunning && !isPaused && timer == null
        && finishCount == old(finishCount) + 1
    {
      CancelInternal(true);
      timeLeftMillis := totalDurationMillis;
      CreateAndStartTimer(totalDurationMillis, now);
    }

    /** Pauses the countdown at `now`, keeping the remaining time; finishes if none is left. */
    method Pause(now: int)
      requires Valid()
      modifies this
      ensures Valid()
      ensures State() == Step(totalDurationMillis, old(State()), TimerOp.Pause(now)).state
      ensures finishCount == old(finishCount) + Step(totalDurationMillis, old(State()), TimerOp.Pause(now)).finishes
      ensures !old(isRunning) ==> State() == old(State()) && timer == old(timer) && finishCount == old(finishCount)
      ensures old(isRunning) ==> timer == null && !isRunning
      ensures old(isRunning) && old(timeLeftMillis) - (now - old(startTimeMillis)) <= 0 ==>
        isFinished && timeLeftMillis == 0 && !isPaused && finishCount == old(finishCount) + 1
      ensures old(isRunning) && old(timeLeftMillis) - (now - old(startTimeMillis)) > 0 ==>
        isPaused && timeLeftMillis == old(timeLeftMillis) - (now - old(startTimeMillis))
        && finishCount == old(finishCount)
    {
      if !isRunning {
        return;
      }
      timeLeftMillis := timeLeftMillis - (now - startTimeMillis);
      timer := null;
      isRunning := false;
      if timeLeftMillis <= 0 {
        FinishInternal();
      } else {
        isPaused := true;
      }
    }

    /** Resumes a paused countdown at `now` with the time it had left. */
    method Resume(now: int)
      requires Valid()
      modifies this
      ensures Valid()
      ensures State() == Step(totalDurationMillis, old(State()), TimerOp.Resume(now)).state
      ensures finishCount == old(finishCount)
      ensures !(old(isPaused) && !old(isRunning) && old(timeLeftMillis) > 0) ==>
        State() == old(State()) && timer == old(timer)
      ensures old(isPaused) && !old(isRunning) && old(timeLeftMillis) > 0 ==>
        isRunning && !isPaused && timeLeftMillis == old(timeLeftMillis) && startTimeMillis == now
        && fresh(timer) && timer.durationMillis == timeLeftMillis
    {
      if !isPaused || isRunning {
        return;
      }
      if timeLeftMillis <= 0 {
        return;
      }
      CreateAndStartTimer(timeLeftMillis, now);
      isRunning := true;
      isPaused := false;
    }

    /** Cancels the countdown without resetting the time left and without invoking onFinish. */
    method Cancel()
      requires Valid()
      modifies this
      ensures Valid()
      ensures State() == Step(totalDurationMillis, old(State()), TimerOp.Cancel).state
      ensures !isRunning && !isPaused && timer == null && startTimeMillis == 0
      ensures timeLeftMillis == old(timeLeftMillis) && isFinished == old(isFinished)
      ensures finishCount == old(finishCount)
    {
      CancelInternal(false);
    }

    /** The inner CountDownTimer's onFinish, delivered only while that timer exists. */
    method Fire()
      requires Valid() && timer != null
      modifies this
      ensures Valid()
      ensures State() == Step(totalDurationMillis, old(State()), TimerOp.Fire).state
      ensures finishCount == old(finishCount) + 1
      ensures isFinished && timeLeftMillis == 0 && !isRunning && !isPaused && timer == null
    {
      FinishInternal();
    }

    /** Begins counting `duration` from `now`, or finishes at once when the duration is not positive. */
    method CreateAndStartTimer(duration: int, now: int)
      modifies this
      ensures duration <= 0 ==>
        timer == null && timeLeftMillis == 0 && !isRunning && !isPaused && isFinished
        && startTimeMillis == old(startTimeMillis) && finishCount == old(finishCount) + 1
      ensures duration > 0 ==>
        fresh(timer) && timer.durationMillis == duration && startTimeMillis == now
        && isRunning && !isPaused && timeLeftMillis == old(timeLeftMillis)
        && isFinished == old(isFinished) && finishCount == old(finishCount)
    {
      if duration <= 0 {
        FinishInternal();
        return;
      }
      startTimeMillis := now;
      isRunning := true;
      isPaused := false;
      timer := new CountDownHandle(duration);
    }

    /** Drops the inner timer, clears the flags, zeroes the time left and invokes onFinish once. */
    method FinishInternal()
      modifies this
      ensures timer == null && timeLeftMillis == 0 && !isRunning && !isPaused && isFinished
      ensures startTimeMillis == old(startTimeMillis) && finishCount == old(finishCount) + 1
    {
      timer := null;
      timeLeftMillis := 0;
      isRunning := false;
      isPaused := false;
      isFinished := true;
      finishCount := finishCount + 1;
    }

    /** Drops the inner timer and clears the flags; restores the full duration only when asked. */
    method CancelInternal(resetTime: bool)
      modifies this
      ensures timer == null && !isRunning && !isPaused && startTimeMillis == 0
      ensures timeLeftMillis == if resetTime then totalDurationMillis else old(timeLeftMillis)
      ensures isFinished == old(isFinished) && finishCount == old(finishCount)
    {
      timer := null;
      isRunning := false;
      isPaused := false;
      startTimeMillis := 0;
      if resetTime {
        timeLeftMillis := totalDurationMillis;
      }
    }
  }
}
