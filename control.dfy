/**
  The firmware's main.c: the body of the main loop, which runs the phase
  estimator on the two converter samples, drives the three PWM outputs from
  the duty synthesizer at full amplitude, and moves the commanded step on by
  one every 200 passes; and the timer interrupt, which snapshots the
  velocity.
*/
module Control {
  import Step24
  import Estimator
  import Tracker
  import Modular

  /** Loop passes per commanded step. */
  const PassesPerStep := 200

  /** The amplitude row the loop always asks for, STEP24_AMP_MAX. */
  const LoopAmplitude: Step24.Byte := 61

  /** The two `char` counters local to main: the commanded step and the pass count. */
  datatype Counters = Counters(step: Step24.Byte, ii: Step24.Byte)

  /** A pair of converter readings, u then v. */
  datatype Sample = Sample(u: Step24.Byte, v: Step24.Byte)

  /**
    The bookkeeping at the end of one pass, in `char` arithmetic: count the
    pass, and on the 200th restart the count and move the step on modulo 24.
    Afterwards the count is below 200, and the step changes only together
    with a restart of the count, and then into 0..23.
  */
  function Tick(c: Counters): (r: Counters)
    ensures r.ii < PassesPerStep
    ensures r.step != c.step ==> r.ii == 0 && r.step < Estimator.Steps
    ensures c.step < Estimator.Steps ==> r.step < Estimator.Steps
  {
    var ii := Step24.Wrap8(c.ii + 1);
    if ii >= PassesPerStep then Counters(Step24.Wrap8(c.step + 1) % Estimator.Steps, 0)
    else Counters(c.step, ii)
  }

  /**
    From counters in range, a pass counts up modulo 200, and the step moves
    on by exactly one modulo 24 when the count wraps and stays otherwise.
  */
  lemma TickAdvances(c: Counters)
    requires c.step < 24 && c.ii < PassesPerStep
    ensures Tick(c).ii == (c.ii + 1) % PassesPerStep
    ensures Tick(c).step == if c.ii == PassesPerStep - 1 then (c.step + 1) % 24 else c.step
  {
  }

  /** The counters after `n` passes, both starting at 0; they never leave their ranges. */
  function CountersAfter(n: nat): (c: Counters)
    ensures c.step < 24 && c.ii < PassesPerStep
  {
    if n == 0 then Counters(0, 0) else Tick(CountersAfter(n - 1))
  }

  /** After `n` passes the count is n mod 200 and the step is the number of completed 200s, mod 24. */
  lemma {:induction false} CountersClosedForm(n: nat)
    ensures CountersAfter(n) == Counters((n / PassesPerStep) % 24, n % PassesPerStep)
  {
    if n > 0 {
      var m := n - 1;
      CountersClosedForm(m);
      var q, r := m / PassesPerStep, m % PassesPerStep;
      TickAdvances(CountersAfter(m));
      if r == PassesPerStep - 1 {
        Modular.DivModUnique(n, q + 1, 0, PassesPerStep);
        Modular.AddReduced(q, 1, 24);
      } else {
        Modular.DivModUnique(n, q, r + 1, PassesPerStep);
      }
    }
  }

  /** The counters `n` passes after `c`; from counters in range they stay in range. */
  function CountersFrom(c: Counters, n: nat): (r: Counters)
    ensures c.step < 24 && c.ii < PassesPerStep ==> r.step < 24 && r.ii < PassesPerStep
  {
    if n == 0 then c else Tick(CountersFrom(c, n - 1))
  }

  /**
    Carrying on from the counters of `n0` passes for `m` more passes gives
    the counters of `n0 + m` passes: runs that continue one another add up.
  */
  lemma {:induction false} CountersAfterPlus(n0: nat, m: nat)
    ensures CountersAfter(n0 + m) == CountersFrom(CountersAfter(n0), m)
  {
    if m > 0 {
      CountersAfterPlus(n0, m - 1);
      assert n0 + m - 1 == n0 + (m - 1);
    }
  }

  /** The phases detected for the first `n` of a run of samples, in order. */
  function Detections(samples: seq<Sample>, n: nat): (ds: seq<int>)
    requires n <= |samples|
    ensures |ds| == n
  {
    if n == 0 then [] else Detections(samples, n - 1) + [Step24.DetectedPhase(samples[n - 1].u, samples[n - 1].v)]
  }

  /**
    Adding one more detection's advance to the 16-bit accumulator gives the
    16-bit value of the total advance: the store only needs to wrap once.
  */
  lemma AccumulateOne(start: int, from: int, detected: seq<int>, next: int)
    ensures Step24.Wrap16(Step24.Wrap16(start + Tracker.SumAfter(from, detected)) + Tracker.Advance(Tracker.PhaseAfter(from, detected), next))
      == Step24.Wrap16(start + Tracker.SumAfter(from, detected + [next]))
  {
    Tracker.SumAfterSnoc(from, detected, next);
    Modular.AddReduced(start + Tracker.SumAfter(from, detected), Tracker.Advance(Tracker.PhaseAfter(from, detected), next), 65536);
  }

  /**
    The accumulator holds the exact advance, with no wrap-around, as long as
    at most 5957 passes separate two snapshots: each adds at most 11.
  */
  lemma AccumulatorExact(from: int, detected: seq<int>)
    requires |detected| <= 5957
    ensures Step24.Wrap16(Tracker.SumAfter(from, detected)) == Tracker.SumAfter(from, detected)
  {
    Tracker.SumAfterBounds(from, detected);
  }

  /**
    The 16-bit accumulator after a run of detections, starting from the
    value `start` and the phase `from`.
  */
  function Accumulated(start: int, from: int, detected: seq<int>): Step24.Word
  {
    Step24.Wrap16(start + Tracker.SumAfter(from, detected))
  }

  /**
    A rotor that moved one step forward on each of the n detections since
    the accumulator was last restarted makes the next snapshot exactly n,
    as long as n fits in sixteen bits.
  */
  lemma SteadyRotationVelocity(from: int, detected: seq<int>)
    requires Tracker.SteadyRotation(from, detected)
    requires |detected| < 65536
    ensures Accumulated(0, from, detected) == |detected|
  {
    Tracker.SteadyRotationCounts(from, detected);
  }

  /**
    The first half of a pass of the loop body of main: set the phase from
    the pass's samples. Before it, the phase and the 16-bit accumulator
    reflect a run of earlier detections; after it, the same run extended by
    this pass's detection.
  */
  method SensePass(e: Step24.Engine, sample: Sample, ghost start: int, ghost from: int, ghost before: seq<int>)
    requires e.Valid()
    requires e.phase == Tracker.PhaseAfter(from, before)
    requires e.phaseSum == Accumulated(start, from, before)
    modifies e`phase, e`phaseSum
    ensures e.Valid()
    ensures e.phase == Step24.DetectedPhase(sample.u, sample.v)
    ensures e.phaseSum == Accumulated(start, from, before + [e.phase])
  {
    var adcU := sample.u;
    var adcV := sample.v;
    e.SetPhase(adcU, adcV);
    AccumulateOne(start, from, before, e.phase);
  }

  /**
    The second half of a pass: set the duties of the current step at full
    amplitude, pass them to the three PWM outputs, then count the pass.
  */
  method DrivePass(e: Step24.Engine, c: Counters) returns (next: Counters, pwm: Step24.DutyTriple)
    requires c.step < 24 && c.ii < PassesPerStep
    modifies e`dutyU, e`dutyV, e`dutyW
    ensures pwm == e.Duties() == Step24.Duty(Step24.AmpMax, c.step)
    ensures next == Tick(c)
  {
    var step, ii := c.step, c.ii;
    e.SetDuty(LoopAmplitude, step);
    pwm := Step24.DutyTriple(e.dutyU, e.dutyV, e.dutyW);

    ii := Step24.Wrap8(ii + 1);
    if ii >= PassesPerStep {
      ii := 0;
      step := Step24.Wrap8(step + 1);
      step := step % 24;
    }
    next := Counters(step, ii);
  }

  /**
    One pass of the loop body of main: the phase estimator on this pass's
    samples, then the duties of the commanded step at full amplitude out to
    the PWM outputs, then the counter bookkeeping.
  */
  method Pass(e: Step24.Engine, sample: Sample, c: Counters, ghost start: int, ghost from: int, ghost before: seq<int>)
    returns (next: Counters, pwm: Step24.DutyTriple)
    requires c.step < 24 && c.ii < PassesPerStep
    requires e.Valid()
    requires e.phase == Tracker.PhaseAfter(from, before)
    requires e.phaseSum == Accumulated(start, from, before)
    modifies e`dutyU, e`dutyV, e`dutyW, e`phase, e`phaseSum
    ensures e.Valid()
    ensures e.phase == Step24.DetectedPhase(sample.u, sample.v)
    ensures e.phaseSum == Accumulated(start, from, before + [e.phase])
    ensures next == Tick(c)
    ensures pwm == e.Duties() == Step24.Duty(Step24.AmpMax, c.step)
  {
    SensePass(e, sample, start, from, before);
    next, pwm := DrivePass(e, c);
  }

  /** One more sample appends its detection. */
  lemma DetectionsStep(samples: seq<Sample>, n: nat, m: nat)
    requires n < m == n + 1 <= |samples|
    ensures Detections(samples, m) == Detections(samples, n) + [Step24.DetectedPhase(samples[n].u, samples[n].v)]
  {
  }

  /**
    The main loop run over a finite run of samples, carrying on from the
    counters `c0` it had reached before (main starts from step 0 and count
    0, and the interrupt never touches them): the step and pass count move
    on one tick per pass, the phase is the last detection, the accumulator
    has gained the tracker's advance over all detections, and the PWM
    outputs carry the duties of the step commanded during the last pass, or
    are unchanged after no pass.
  */
  method MainLoop(e: Step24.Engine, samples: seq<Sample>, c0: Counters)
    returns (c: Counters, pwm: Step24.DutyTriple)
    requires e.Valid()
    requires c0.step < 24 && c0.ii < PassesPerStep
    modifies e`dutyU, e`dutyV, e`dutyW, e`phase, e`phaseSum
    ensures e.Valid()
    ensures c == CountersFrom(c0, |samples|)
    ensures e.phase == Tracker.PhaseAfter(old(e.phase), Detections(samples, |samples|))
    ensures e.phaseSum == Accumulated(old(e.phaseSum), old(e.phase), Detections(samples, |samples|))
    ensures pwm == e.Duties()
    ensures |samples| == 0 ==> pwm == old(e.Duties())
    ensures |samples| > 0 ==> pwm == Step24.Duty(Step24.AmpMax, CountersFrom(c0, |samples| - 1).step)
  {
    c := c0;
    pwm := e.Duties();
    // a run of no passes leaves the outputs as they were
    if |samples| == 0 {
      return;
    }
    var k := 0;
    ghost var last := 0;
    ghost var ds: seq<int> := [];
    while k != |samples|
      invariant k <= |samples|
      invariant e.Valid()
      invariant c == CountersFrom(c0, k)
      invariant ds == Detections(samples, k)
      invariant e.phase == Tracker.PhaseAfter(old(e.phase), ds)
      invariant e.phaseSum == Accumulated(old(e.phaseSum), old(e.phase), ds)
      invariant pwm == e.Duties()
      invariant k > 0 ==> k == last + 1 && pwm == Step24.Duty(Step24.AmpMax, CountersFrom(c0, last).step)
    {
      c, pwm := Pass(e, samples[k], c, old(e.phaseSum), old(e.phase), ds);
      Tracker.PhaseAfterSnoc(old(e.phase), ds, e.phase);
      ds := ds + [e.phase];
      last := k;
      k := k + 1;
      DetectionsStep(samples, last, k);
    }
  }

  /**
    isr: when the timer-1 flag is set, snapshot the accumulator as the
    velocity and restart it; nothing else changes.
  */
  method Isr(e: Step24.Engine, timerFlag: bool)
    modifies e`velocity, e`phaseSum
    ensures timerFlag ==> e.velocity == old(e.phaseSum) && e.phaseSum == 0
    ensures !timerFlag ==> e.velocity == old(e.velocity) && e.phaseSum == old(e.phaseSum)
  {
    if timerFlag {
      e.SetVelocity();
    }
  }

  /**
    One timer period as the firmware lives it: the interrupt restarts the
    accumulator, the main loop makes its passes while the timer does not
    fire, carrying on from the counters `c0` it had reached, and the next
    interrupt takes as the velocity the advances summed over exactly those
    passes. The counters and the duties are those the loop leaves; by
    CountersAfterPlus, periods that follow one another count their passes
    together from the start of main.
  */
  method TimerPeriod(e: Step24.Engine, samples: seq<Sample>, c0: Counters)
    returns (velocity: Step24.Word, c: Counters)
    requires e.Valid()
    requires c0.step < 24 && c0.ii < PassesPerStep
    modifies e`dutyU, e`dutyV, e`dutyW, e`phase, e`phaseSum, e`velocity
    ensures e.Valid()
    ensures c == CountersFrom(c0, |samples|)
    ensures e.phase == Tracker.PhaseAfter(old(e.phase), Detections(samples, |samples|))
    ensures velocity == e.velocity == Accumulated(0, old(e.phase), Detections(samples, |samples|))
    ensures e.phaseSum == 0
    ensures |samples| == 0 ==> e.Duties() == old(e.Duties())
    ensures |samples| > 0 ==> e.Duties() == Step24.Duty(Step24.AmpMax, CountersFrom(c0, |samples| - 1).step)
  {
    Isr(e, true);
    var duties;
    c, duties := MainLoop(e, samples, c0);
    Isr(e, true);
    velocity := e.velocity;
  }
}
