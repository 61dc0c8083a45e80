/**
 * The rest timer (`useTimer`): global countdown state driven by
 * `startTimer`, `stopTimer` and the periodic `updateTimer`. `Date.now()` is
 * the explicit argument `now` (milliseconds); the host interval is the flag
 * `intervalActive`; the completion toast is the result of `UpdateTimer`.
 */
module UseTimer {
  import opened Wrappers

  /** `Math.ceil(ms / 1000)` for integer milliseconds. */
  function CeilSeconds(ms: int): (r: int)
    ensures (r - 1) * 1000 < ms <= r * 1000
  {
    (ms + 999) / 1000
  }

  /** `Math.max(0, Math.ceil((target - now) / 1000))`: never negative, zero
      exactly when the target time has come, and before that the number of
      started seconds left. */
  function RemainingSeconds(target: int, now: int): (r: int)
    ensures r >= 0
    ensures r == 0 <==> now >= target
    ensures now < target ==> (r - 1) * 1000 < target - now <= r * 1000
  {
    var diff := CeilSeconds(target - now);
    if diff < 0 then 0 else diff
  }

  /** Started with `seconds >= 0` at `start`, the countdown shows `seconds`
      at the start and never more than that afterwards. */
  lemma RemainingAtMostTotal(start: int, seconds: int, now: int)
    requires seconds >= 0 && now >= start
    ensures RemainingSeconds(start + seconds * 1000, now) <= seconds
    ensures now == start ==> RemainingSeconds(start + seconds * 1000, now) == seconds
  {
    var d := start + seconds * 1000 - now;
    var r := CeilSeconds(d);
    assert (r - 1) * 1000 < d <= seconds * 1000;
    assert r - 1 < seconds;
  }

  /** The countdown never goes up as time passes. */
  lemma RemainingSecondsMonotone(target: int, earlier: int, later: int)
    requires earlier <= later
    ensures RemainingSeconds(target, later) <= RemainingSeconds(target, earlier)
  {
    var a := CeilSeconds(target - earlier);
    var b := CeilSeconds(target - later);
    assert (b - 1) * 1000 < target - later <= target - earlier <= a * 1000;
    assert b - 1 < a;
  }

  /** `if (!timerTargetTime.value) return;`: null and 0 are both falsy. */
  predicate TargetSet(target: Option<int>) {
    target.Some? && target.value != 0
  }

  /** The global timer state. */
  class RestTimer {
    var remainingSeconds: int
    var totalSeconds: int
    var isTimerRunning: bool
    var timerTargetTime: Option<int>
    /** `timerInterval !== null`: the periodic update is scheduled. */
    var intervalActive: bool
    /** When the running countdown was started. */
    ghost var startedAt: int

    /** Running exactly when there is a target and an interval; the target
        is the start plus the total duration. */
    ghost predicate Valid()
      reads this
    {
      && (isTimerRunning <==> timerTargetTime.Some?)
      && (intervalActive <==> isTimerRunning)
      && (isTimerRunning ==> timerTargetTime.value == startedAt + totalSeconds * 1000)
    }

    constructor ()
      ensures Valid()
      ensures remainingSeconds == 0 && totalSeconds == 0 && !isTimerRunning && timerTargetTime == None
    {
      remainingSeconds := 0;
      totalSeconds := 0;
      isTimerRunning := false;
      timerTargetTime := None;
      intervalActive := false;
      startedAt := 0;
    }

    /** `stopTimer()`: clears the interval and the target, shows 0 and keeps
        the total. Stopping a stopped timer leaves it as it is. */
    method StopTimer()
      requires Valid()
      modifies this`intervalActive, this`isTimerRunning, this`timerTargetTime, this`remainingSeconds
      ensures Valid()
      ensures !isTimerRunning && timerTargetTime == None && remainingSeconds == 0 && !intervalActive
      ensures totalSeconds == old(totalSeconds)
      ensures old(!isTimerRunning && remainingSeconds == 0) ==> unchanged(this)
    {
      if intervalActive {
        intervalActive := false;
      }
      isTimerRunning := false;
      timerTargetTime := None;
      remainingSeconds := 0;
    }

    /** `startTimer(seconds)`: a no-op while running; otherwise the countdown
        starts from `seconds` with its target `seconds * 1000` ms from now. */
    method StartTimer(seconds: int, now: int)
      requires Valid()
      modifies this
      ensures Valid()
      ensures old(isTimerRunning) ==> unchanged(this)
      ensures !old(isTimerRunning) ==>
        && totalSeconds == seconds && remainingSeconds == seconds
        && timerTargetTime == Some(now + seconds * 1000)
        && isTimerRunning && intervalActive && startedAt == now
    {
      if isTimerRunning {
        return;
      }
      StopTimer();
      totalSeconds := seconds;
      remainingSeconds := seconds;
      var durationMs := seconds * 1000;
      timerTargetTime := Some(now + durationMs);
      isTimerRunning := true;
      startedAt := now;
      intervalActive := true;
    }

    /** `updateTimer()`: with no (truthy) target nothing changes; otherwise
        the countdown is recomputed from the clock, and once it reaches zero
        the timer stops and the completion notice is due (`finished`). */
    method UpdateTimer(now: int) returns (finished: bool)
      requires Valid()
      modifies this`intervalActive, this`isTimerRunning, this`timerTargetTime, this`remainingSeconds
      ensures Valid()
      ensures !TargetSet(old(timerTargetTime)) ==> unchanged(this) && !finished
      ensures TargetSet(old(timerTargetTime)) ==>
        && finished == (now >= old(timerTargetTime).value)
        && remainingSeconds == RemainingSeconds(old(timerTargetTime).value, now)
        && remainingSeconds >= 0
        && (finished ==> !isTimerRunning && timerTargetTime == None && !intervalActive)
        && (!finished ==> isTimerRunning == old(isTimerRunning) && timerTargetTime == old(timerTargetTime))
      ensures totalSeconds == old(totalSeconds)
      ensures old(isTimerRunning) && TargetSet(old(timerTargetTime)) && now >= startedAt && totalSeconds >= 0 ==>
        remainingSeconds <= totalSeconds
    {
      finished := false;
      if !TargetSet(timerTargetTime) {
        return;
      }
      var target := timerTargetTime.value;
      var diff := CeilSeconds(target - now);
      remainingSeconds := if diff < 0 then 0 else diff;
      assert remainingSeconds == RemainingSeconds(target, now);
      if isTimerRunning && now >= startedAt && totalSeconds >= 0 {
        RemainingAtMostTotal(startedAt, totalSeconds, now);
      }
      if diff <= 0 {
        StopTimer();
        finished := true;
      }
    }
  }
}
