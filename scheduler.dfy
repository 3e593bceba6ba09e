/** The render thread of the Core Audio side (Milky/DSP/video.cpp): a loop that
    measures the frame rate from the millisecond clock, logs it at most once a second,
    renders into the write buffer, adapts its sleep time towards a desired frame rate
    within [1 ms, 33 ms], and toggles the double buffer.

    The double buffer is the one of Video (the same three functions appear in both
    files). The clock is a parameter: each iteration receives the time it reads. */
module Scheduler {
  import opened Numeric
  import opened Video

  // ---------------------------------------------------------------------------
  // The millisecond clock

  /** The largest value of the signed 64-bit `tv_sec * 1000 + tv_usec / 1000`. */
  const MaxSignedLong: int := 0x7FFF_FFFF_FFFF_FFFF

  /** `getCurrentTimeMillis` on a `timeval` of (sec, usec): whole milliseconds, with the
      microseconds truncated. The signed multiplication must not overflow. */
  function CurrentTimeMillis(sec: nat, usec: nat): (ms: nat)
    requires usec < 1000000 && sec * 1000 + usec / 1000 <= MaxSignedLong
    ensures IsSize(ms)
    ensures ms / 1000 == sec && ms % 1000 == usec / 1000
  {
    DivModUnique(sec * 1000 + usec / 1000, 1000, sec, usec / 1000);
    AsSize(sec * 1000 + usec / 1000)
  }

  /** A later `timeval` never reads as an earlier millisecond. */
  lemma MillisMonotone(sec: nat, usec: nat, sec': nat, usec': nat)
    requires usec < 1000000 && sec * 1000 + usec / 1000 <= MaxSignedLong
    requires usec' < 1000000 && sec' * 1000 + usec' / 1000 <= MaxSignedLong
    requires sec < sec' || (sec == sec' && usec <= usec')
    ensures CurrentTimeMillis(sec, usec) <= CurrentTimeMillis(sec', usec')
  {
    if sec < sec' {
      MulAtLeast(sec' - sec, 1000);
      assert sec' * 1000 == sec * 1000 + (sec' - sec) * 1000;
    } else {
      assert usec / 1000 <= usec' / 1000;
    }
  }

  // ---------------------------------------------------------------------------
  // The adaptive sleep time

  const MinSleepTime: nat := 1000
  const MaxSleepTime: nat := 33000
  const FpsAdjustmentFactor: real := 0.05
  /** The sleep time the loop starts with, in microseconds. */
  const InitialSleepTime: nat := 33000

  predicate InSleepRange(sleep: nat)
  {
    MinSleepTime <= sleep <= MaxSleepTime
  }

  /** The sleep adjustment of one iteration: shorter by 5% (truncated, not below 1 ms)
      while the loop runs slower than desired, longer by 5% (truncated, not above
      33 ms) while it runs faster, unchanged otherwise or at the bound. */
  function AdjustSleep(sleep: nat, fps: real, desiredFps: nat): (r: nat)
    ensures fps < desiredFps as real && sleep > MinSleepTime ==>
              MinSleepTime <= r < sleep &&
              (r == MinSleepTime ||
               r as real <= sleep as real * (1.0 - FpsAdjustmentFactor) < r as real + 1.0)
    ensures (!(fps < desiredFps as real && sleep > MinSleepTime) &&
             fps > desiredFps as real && sleep < MaxSleepTime) ==>
              sleep <= r <= MaxSleepTime && (sleep >= MinSleepTime ==> sleep < r) &&
              (r == MaxSleepTime ||
               r as real <= sleep as real * (1.0 + FpsAdjustmentFactor) < r as real + 1.0)
    ensures (!(fps < desiredFps as real && sleep > MinSleepTime) &&
             !(fps > desiredFps as real && sleep < MaxSleepTime)) ==> r == sleep
    ensures InSleepRange(sleep) ==> InSleepRange(r)
  {
    if fps < desiredFps as real && sleep > MinSleepTime then
      Max(MinSleepTime, Trunc(sleep as real * (1.0 - FpsAdjustmentFactor)))
    else if fps > desiredFps as real && sleep < MaxSleepTime then
      Min(MaxSleepTime, Trunc(sleep as real * (1.0 + FpsAdjustmentFactor)))
    else sleep
  }

  /** The sleep time after a run of iterations with the given measured frame rates. */
  function SleepAfter(sleep: nat, rates: seq<real>, desiredFps: nat): nat
    decreases |rates|
  {
    if |rates| == 0 then sleep
    else AdjustSleep(SleepAfter(sleep, rates[..|rates| - 1], desiredFps), rates[|rates| - 1], desiredFps)
  }

  /** From any sleep time in range, whatever frame rates are measured, it stays in range. */
  lemma {:induction false} SleepAfterInRange(sleep: nat, rates: seq<real>, desiredFps: nat)
    requires InSleepRange(sleep)
    ensures InSleepRange(SleepAfter(sleep, rates, desiredFps))
    decreases |rates|
  {
    if |rates| > 0 {
      SleepAfterInRange(sleep, rates[..|rates| - 1], desiredFps);
    }
  }

  // ---------------------------------------------------------------------------
  // One iteration of renderLoop

  /** The variables renderLoop updates: the times of the last frame and of the last
      log, the sleep time and the measured frame rate. */
  datatype LoopState = LoopState(lastFrameTime: nat, lastFpsLogTime: nat, sleepTime: nat, currentFps: real)

  predicate ValidLoopState(s: LoopState)
  {
    IsSize(s.lastFrameTime) && IsSize(s.lastFpsLogTime)
  }

  /** `1.0 / deltaTime` for a positive size_t difference in milliseconds. */
  function FrameRate(deltaMillis: nat): (r: real)
    requires deltaMillis > 0
    ensures r > 0.0 && r * deltaMillis as real == 1000.0
  {
    1.0 / (deltaMillis as real / 1000.0)
  }

  /** The frame rate measured at currentTime: recomputed when time has passed since the
      last frame (as a size_t difference), kept otherwise. */
  function MeasuredFps(s: LoopState, currentTime: nat): (r: real)
    requires ValidLoopState(s) && IsSize(currentTime)
    ensures currentTime != s.lastFrameTime ==> r * SizeSub(currentTime, s.lastFrameTime) as real == 1000.0
    ensures currentTime == s.lastFrameTime ==> r == s.currentFps
  {
    var delta := SizeSub(currentTime, s.lastFrameTime);
    if delta > 0 then FrameRate(delta) else s.currentFps
  }

  /** Whether the frame rate is logged at currentTime: a second or more since the last
      log, as a size_t difference, which also fires when the clock went backwards by
      less than 2^64 - 1000 ms. */
  function LogDue(lastFpsLogTime: nat, currentTime: nat): (due: bool)
    requires IsSize(lastFpsLogTime) && IsSize(currentTime)
    ensures currentTime >= lastFpsLogTime ==> (due <==> currentTime - lastFpsLogTime >= 1000)
    ensures currentTime < lastFpsLogTime && lastFpsLogTime - currentTime <= SizeModulus - 1000 ==> due
  {
    SizeSub(currentTime, lastFpsLogTime) >= 1000
  }

  /** The state after one iteration at currentTime. */
  function Step(s: LoopState, currentTime: nat, desiredFps: nat): (r: LoopState)
    requires ValidLoopState(s) && IsSize(currentTime)
    ensures ValidLoopState(r) && r.lastFrameTime == currentTime
    ensures r.currentFps == MeasuredFps(s, currentTime)
    ensures r.lastFpsLogTime == (if LogDue(s.lastFpsLogTime, currentTime) then currentTime else s.lastFpsLogTime)
    ensures r.sleepTime == AdjustSleep(s.sleepTime, r.currentFps, desiredFps)
  {
    var fps := MeasuredFps(s, currentTime);
    LoopState(currentTime, if LogDue(s.lastFpsLogTime, currentTime) then currentTime else s.lastFpsLogTime,
              AdjustSleep(s.sleepTime, fps, desiredFps), fps)
  }

  predicate AllTimes(times: seq<nat>)
  {
    forall i :: 0 <= i < |times| ==> IsSize(times[i])
  }

  /** The state after one iteration per clock reading. */
  function StepAll(s: LoopState, times: seq<nat>, desiredFps: nat): (r: LoopState)
    requires ValidLoopState(s) && AllTimes(times)
    ensures ValidLoopState(r)
    decreases |times|
  {
    if |times| == 0 then s
    else Step(StepAll(s, times[..|times| - 1], desiredFps), times[|times| - 1], desiredFps)
  }

  /** The frame rates measured by a run of iterations. */
  function RatesOf(s: LoopState, times: seq<nat>, desiredFps: nat): (rates: seq<real>)
    requires ValidLoopState(s) && AllTimes(times)
    ensures |rates| == |times|
    decreases |times|
  {
    if |times| == 0 then []
    else
      var prefix := times[..|times| - 1];
      RatesOf(s, prefix, desiredFps) + [MeasuredFps(StepAll(s, prefix, desiredFps), times[|times| - 1])]
  }

  /** The sleep time of a run is the sleep adjustment applied to the rates it measured,
      and it therefore stays in [1 ms, 33 ms] when it starts there. */
  lemma {:induction false} StepAllSleep(s: LoopState, times: seq<nat>, desiredFps: nat)
    requires ValidLoopState(s) && AllTimes(times)
    ensures StepAll(s, times, desiredFps).sleepTime == SleepAfter(s.sleepTime, RatesOf(s, times, desiredFps), desiredFps)
    ensures InSleepRange(s.sleepTime) ==> InSleepRange(StepAll(s, times, desiredFps).sleepTime)
    decreases |times|
  {
    var rates := RatesOf(s, times, desiredFps);
    if |times| > 0 {
      var prefix := times[..|times| - 1];
      StepAllSleep(s, prefix, desiredFps);
      assert rates[..|rates| - 1] == RatesOf(s, prefix, desiredFps);
    }
    if InSleepRange(s.sleepTime) {
      SleepAfterInRange(s.sleepTime, rates, desiredFps);
    }
  }

  /** renderLoop's locals and the double buffer it toggles. */
  class RenderLoop {
    var lastFrameTime: nat
    var lastFpsLogTime: nat
    var sleepTime: nat
    var currentFps: real
    const buffers: DoubleBuffer

    function State(): LoopState
      reads this
    {
      LoopState(lastFrameTime, lastFpsLogTime, sleepTime, currentFps)
    }

    /** The start of renderLoop, with the clock reading startTime. */
    constructor (startTime: nat, buffers: DoubleBuffer)
      requires IsSize(startTime)
      ensures State() == LoopState(startTime, startTime, InitialSleepTime, 0.0) && this.buffers == buffers
      ensures ValidLoopState(State()) && InSleepRange(sleepTime)
    {
      lastFrameTime := startTime;
      lastFpsLogTime := startTime;
      sleepTime := InitialSleepTime;
      currentFps := 0.0;
      this.buffers := buffers;
    }

    /** One iteration of the loop body at clock reading currentTime; `logged` tells
        whether the frame rate is printed. */
    method Iterate(currentTime: nat, desiredFps: nat) returns (logged: bool)
      requires ValidLoopState(State()) && IsSize(currentTime)
      modifies this, buffers
      ensures State() == Step(old(State()), currentTime, desiredFps)
      ensures logged == LogDue(old(lastFpsLogTime), currentTime)
      ensures buffers.flags == Toggled(old(buffers.flags))
    {
      var deltaMillis := SizeSub(currentTime, lastFrameTime);
      if deltaMillis > 0 {
        currentFps := FrameRate(deltaMillis);
      }
      logged := SizeSub(currentTime, lastFpsLogTime) >= 1000;
      if logged {
        lastFpsLogTime := currentTime;
      }
      lastFrameTime := currentTime;
      if currentFps < desiredFps as real && sleepTime > MinSleepTime {
        sleepTime := Trunc(sleepTime as real * (1.0 - FpsAdjustmentFactor));
        if sleepTime < MinSleepTime {
          sleepTime := MinSleepTime;
        }
      } else if currentFps > desiredFps as real && sleepTime < MaxSleepTime {
        sleepTime := Trunc(sleepTime as real * (1.0 + FpsAdjustmentFactor));
        if sleepTime > MaxSleepTime {
          sleepTime := MaxSleepTime;
        }
      }
      buffers.ToggleBuffer();
    }

    /** The loop run for one iteration per clock reading in times. */
    method Run(times: seq<nat>, desiredFps: nat)
      requires ValidLoopState(State()) && AllTimes(times)
      modifies this, buffers
      ensures State() == StepAll(old(State()), times, desiredFps)
      ensures buffers.flags == ToggledTimes(old(buffers.flags), |times|)
    {
      var i := 0;
      while i < |times|
        invariant 0 <= i <= |times|
        invariant ValidLoopState(State()) && State() == StepAll(old(State()), times[..i], desiredFps)
        invariant buffers.flags == ToggledTimes(old(buffers.flags), i)
      {
        assert times[..i + 1][..i] == times[..i];
        var _ := Iterate(times[i], desiredFps);
        i := i + 1;
      }
      assert times[..i] == times;
    }
  }
}
