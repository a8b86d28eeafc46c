/**
  The browser simulator's `set_phase` (phase.js): the same estimator and
  tracker as the firmware, computed in unbounded integers, plus an interval
  counter that publishes the accumulated advance as the velocity once every
  `interval + 1` calls. The module-level variables of the script are the
  fields of Simulator.
*/
module PhaseSim {
  import opened Wrappers
  import Estimator
  import Tracker
  import Step24
  import Modular

  /** Largest advance one call can add to the accumulator, JumpLimit - 1. */
  const MaxAdvance: int := 11

  /** A converter reading as the caller clamps it. */
  predicate InRange(adc: int) { 0 <= adc <= 255 }

  /**
    The six estimates of set_phase: the halved samples, the derived third
    axis, u and v moved up by 64, and each wave less the high-frequency part
    of another. Nothing wraps: the w estimates may fall below zero.
  */
  function EstimatesOf(adcU: int, adcV: int): (r: Estimator.Estimates)
    requires InRange(adcU) && InRange(adcV)
    ensures 28 <= r.uDel <= 179 && 28 <= r.vAdv <= 179
    ensures 16 <= r.uAdv <= 191 && 16 <= r.vDel <= 191
    ensures -35 <= r.wDel <= 243 && -35 <= r.wAdv <= 243
  {
    var u, v := adcU / 2 + 64, adcV / 2 + 64;
    var w := 255 - adcU / 2 - adcV / 2;
    var zu, zv, zw := Estimator.HighFreq(u), Estimator.HighFreq(v), Estimator.HighFreq(w);
    Estimator.Estimates(u - zv, u - zw, v - zw, v - zu, w - zu, w - zv)
  }

  /**
    The wave arithmetic at the head of set_phase, statement by statement:
    halve the samples, derive the third axis, move u and v up by 64, then
    take from each wave the high-frequency part of another.
  */
  method Estimate(adcU: int, adcV: int) returns (e: Estimator.Estimates)
    requires InRange(adcU) && InRange(adcV)
    ensures e == EstimatesOf(adcU, adcV)
  {
    var waveU := adcU / 2;
    var waveV := adcV / 2;
    var waveW := 255 - waveU;
    waveW := waveW - waveV;
    waveV := waveV + 64;
    waveU := waveU + 64;

    var uDel, uAdv, vDel, vAdv, wDel, wAdv;
    var waveZ := waveV / 4;
    waveZ := waveZ - waveZ / 4;
    uDel := waveU - waveZ;
    wAdv := waveW - waveZ;
    waveZ := waveW / 4;
    waveZ := waveZ - waveZ / 4;
    vDel := waveV - waveZ;
    uAdv := waveU - waveZ;
    waveZ := waveU / 4;
    waveZ := waveZ - waveZ / 4;
    wDel := waveW - waveZ;
    vAdv := waveV - waveZ;
    e := Estimator.Estimates(uDel, uAdv, vDel, vAdv, wDel, wAdv);
  }

  /** The phase the simulator detects for a pair of samples. */
  function DetectedPhase(adcU: int, adcV: int): (p: int)
    requires InRange(adcU) && InRange(adcV)
    ensures 0 <= p < Estimator.Steps
  {
    Estimator.Classify(EstimatesOf(adcU, adcV))
  }

  /**
    The estimates of set_phase and the phase its cascade of six comparison
    blocks assigns last.
  */
  method Detect(adcU: int, adcV: int) returns (e: Estimator.Estimates, detected: int)
    requires InRange(adcU) && InRange(adcV)
    ensures e == EstimatesOf(adcU, adcV)
    ensures detected == DetectedPhase(adcU, adcV)
  {
    e := Estimate(adcU, adcV);
    var found := Estimator.Detect(e);
    Estimator.AlwaysFires(e);
    detected := found.value;
  }

  /**
    The simulator's estimates are the firmware's before the store into a
    `char`: the four derived from u and v are equal, and the two derived
    from w agree modulo 256.
  */
  lemma EstimatesMatchFirmware(adcU: int, adcV: int)
    requires InRange(adcU) && InRange(adcV)
    ensures var e := EstimatesOf(adcU, adcV);
      Step24.EstimatesOf(adcU, adcV) ==
        Estimator.Estimates(e.uDel, e.uAdv, e.vDel, e.vAdv, e.wDel % 256, e.wAdv % 256)
  {
    var w := Step24.WavesOf(adcU, adcV);
    assert w.u == adcU / 2 + 64 && w.v == adcV / 2 + 64;
  }

  /** The w estimates go negative where the firmware's wrap: two full-scale samples give w_adv = -35. */
  lemma EstimatesCanBeNegative()
    ensures EstimatesOf(255, 255).wAdv == -35 && EstimatesOf(255, 255).wDel == -35
    ensures Step24.EstimatesOf(255, 255).wAdv == 221
  {
    Step24.WEstimatesCanWrap();
  }

  /**
    While the derived third axis stays at 36 or more, no estimate wraps in
    the firmware, so the firmware and the simulator detect the same phase.
  */
  lemma AgreesWithFirmware(adcU: int, adcV: int)
    requires InRange(adcU) && InRange(adcV)
    requires adcU / 2 + adcV / 2 <= 219
    ensures DetectedPhase(adcU, adcV) == Step24.DetectedPhase(adcU, adcV)
  {
    EstimatesMatchFirmware(adcU, adcV);
    var e := EstimatesOf(adcU, adcV);
    assert 0 <= e.wDel < 256 && 0 <= e.wAdv < 256;
    assert Step24.EstimatesOf(adcU, adcV) == e;
  }

  /**
    Beyond that bound they can differ: for samples (186, 254) the third axis
    is 35, w_adv is -1 in the simulator and 255 in the firmware, and the
    simulator detects phase 1 where the firmware detects phase 6.
  */
  lemma DivergesFromFirmware()
    ensures DetectedPhase(186, 254) == 1
    ensures Step24.DetectedPhase(186, 254) == 6
  {
    var e := EstimatesOf(186, 254);
    assert e == Estimator.Estimates(121, 151, 185, 161, 5, -1);
    Estimator.LastWriteByBlocks(e);
    EstimatesMatchFirmware(186, 254);
    var c := Step24.EstimatesOf(186, 254);
    assert c == Estimator.Estimates(121, 151, 185, 161, 5, 255);
    Estimator.LastWriteByBlocks(c);
  }

  /** The velocity counter after `n` calls from a reset, publishing whenever it has reached `interval`. */
  function CountAfter(interval: nat, n: nat): (count: nat)
    ensures count <= interval
  {
    if n == 0 then 0
    else
      var count := CountAfter(interval, n - 1);
      if interval <= count then 0 else count + 1
  }

  /** Call `n + 1` after a reset publishes the velocity. */
  predicate PublishesAt(interval: nat, n: nat)
  {
    interval <= CountAfter(interval, n)
  }

  /** The counter runs through 0, 1, ..., interval and starts again. */
  lemma {:induction false} CountCycles(interval: nat, n: nat)
    ensures CountAfter(interval, n) == n % (interval + 1)
  {
    if n > 0 {
      CountCycles(interval, n - 1);
      Modular.Successor(n - 1, interval + 1);
    }
  }

  /** The velocity is published exactly on every (interval + 1)-th call. */
  lemma PublishesEveryInterval(interval: nat, n: nat)
    ensures PublishesAt(interval, n) <==> (n + 1) % (interval + 1) == 0
  {
    CountCycles(interval, n);
    CountCycles(interval, n + 1);
  }

  /** The script's module-level state. */
  class Simulator {
    var uDel: int
    var uAdv: int
    var vDel: int
    var vAdv: int
    var wDel: int
    var wAdv: int
    var phase: int
    var diffSum: int
    var velocity: int
    var veloInterval: nat
    var veloCount: nat

    /**
      The phase is one of the 24 steps, the counter has not passed the
      interval, and both the running sum and the published velocity are at
      most one maximal advance per call they cover.
    */
    ghost predicate Valid()
      reads this`phase, this`diffSum, this`velocity, this`veloInterval, this`veloCount
    {
      && 0 <= phase < Estimator.Steps
      && veloCount <= veloInterval
      && 0 <= diffSum <= MaxAdvance * veloCount
      && 0 <= velocity <= MaxAdvance * (veloInterval + 1)
    }

    function Estimates(): Estimator.Estimates
      reads this`uDel, this`uAdv, this`vDel, this`vAdv, this`wDel, this`wAdv
    {
      Estimator.Estimates(uDel, uAdv, vDel, vAdv, wDel, wAdv)
    }

    /**
      The state at the start of a simulation run, with velocity published
      every `interval + 1` calls. The estimates, undefined in the script
      until the first call, start at zero.
    */
    constructor (interval: nat)
      ensures Valid()
      ensures phase == 0 && diffSum == 0 && velocity == 0 && veloCount == 0
      ensures veloInterval == interval
      ensures Estimates() == Estimator.Estimates(0, 0, 0, 0, 0, 0)
    {
      uDel, uAdv, vDel, vAdv, wDel, wAdv := 0, 0, 0, 0, 0, 0;
      phase, diffSum, velocity := 0, 0, 0;
      veloInterval, veloCount := interval, 0;
    }

    /**
      set_phase: overwrite the six estimates from this call's samples,
      detect the phase, and track it.
    */
    method SetPhase(adcU: int, adcV: int)
      requires Valid()
      requires InRange(adcU) && InRange(adcV)
      modifies this`uDel, this`uAdv, this`vDel, this`vAdv, this`wDel, this`wAdv
      modifies this`phase, this`diffSum, this`velocity, this`veloCount
      ensures Valid()
      ensures Estimates() == EstimatesOf(adcU, adcV)
      ensures phase == DetectedPhase(adcU, adcV)
      ensures var sum := old(diffSum) + Tracker.Advance(old(phase), phase);
        if veloInterval <= old(veloCount) then
          velocity == sum && diffSum == 0 && veloCount == 0
        else
          velocity == old(velocity) && diffSum == sum && veloCount == old(veloCount) + 1
    {
      var e, detected := Detect(adcU, adcV);
      uDel, uAdv, vDel, vAdv, wDel, wAdv := e.uDel, e.uAdv, e.vDel, e.vAdv, e.wDel, e.wAdv;
      Track(detected);
    }

    /**
      The tail of set_phase: accumulate the forward distance to the detected
      phase unless it is an implausible jump, make it the current phase, and
      publish the sum as the velocity when the counter has reached the
      interval.
    */
    method Track(detected: int)
      requires Valid()
      requires 0 <= detected < Estimator.Steps
      modifies this`phase, this`diffSum, this`velocity, this`veloCount
      ensures Valid()
      ensures phase == detected
      ensures var sum := old(diffSum) + Tracker.Advance(old(phase), detected);
        if veloInterval <= old(veloCount) then
          velocity == sum && diffSum == 0 && veloCount == 0
        else
          velocity == old(velocity) && diffSum == sum && veloCount == old(veloCount) + 1
    {
      Tracker.AdvanceWithoutModulus(phase, detected);
      var phaseDiff := if detected < phase then 24 else 0;
      phaseDiff := phaseDiff + detected;
      phaseDiff := phaseDiff - phase;
      if phaseDiff >= Tracker.JumpLimit {
        phaseDiff := 0;
      }
      diffSum := diffSum + phaseDiff;
      phase := detected;

      if veloInterval <= veloCount {
        velocity := diffSum;
        diffSum := 0;
        veloCount := 0;
      } else {
        veloCount := veloCount + 1;
      }
    }
  }
}
