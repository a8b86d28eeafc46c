/**
  The phase tracker shared by the firmware and the simulator: the forward
  distance, modulo 24 steps, from the current phase to the detected one, and
  the runaway-jump guard that refuses distances of half a revolution or more.
*/
module Tracker {
  import Estimator

  /** A forward distance of this many steps or more is an implausible jump. */
  const JumpLimit := 12

  /** How many steps forward `to` lies from `from`, modulo one revolution. */
  function ForwardDistance(from: int, to: int): (d: int)
    ensures 0 <= d < Estimator.Steps
    ensures (from + d) % Estimator.Steps == to % Estimator.Steps
  {
    (to - from) % Estimator.Steps
  }

  /**
    The contribution of one detection to the angular accumulator: the forward
    distance when it is below the jump limit, and nothing otherwise.
  */
  function Advance(from: int, to: int): (a: int)
    ensures 0 <= a < JumpLimit
    ensures ((from + a) % Estimator.Steps == to % Estimator.Steps) <==> ForwardDistance(from, to) < JumpLimit
    ensures ForwardDistance(from, to) >= JumpLimit ==> a == 0
  {
    var d := ForwardDistance(from, to);
    if d < JumpLimit then d else 0
  }

  /**
    The forward distance as both programs compute it, without a modulus:
    add a turn when `to` is numerically behind `from`, then subtract.
  */
  lemma AdvanceWithoutModulus(from: int, to: int)
    requires 0 <= from < Estimator.Steps && 0 <= to < Estimator.Steps
    ensures var d := (if to < from then Estimator.Steps else 0) + to - from;
      Advance(from, to) == if d >= JumpLimit then 0 else d
  {
    if to < from {
      assert (to - from) % Estimator.Steps == to - from + Estimator.Steps;
    } else {
      assert (to - from) % Estimator.Steps == to - from;
    }
  }

  /** Total advance over a run of detections, starting at phase `from`. */
  function SumAfter(from: int, detected: seq<int>): int
    decreases |detected|
  {
    if detected == [] then 0 else Advance(from, detected[0]) + SumAfter(detected[0], detected[1..])
  }

  /** The phase held after a run of detections: the last detection, or `from` for none. */
  function PhaseAfter(from: int, detected: seq<int>): int
  {
    if detected == [] then from else detected[|detected| - 1]
  }

  /** After one more detection, the phase is that detection. */
  lemma PhaseAfterSnoc(from: int, detected: seq<int>, next: int)
    ensures PhaseAfter(from, detected + [next]) == next
  {
  }

  /** Each detection adds at most JumpLimit - 1 steps. */
  lemma {:induction false} SumAfterBounds(from: int, detected: seq<int>)
    ensures 0 <= SumAfter(from, detected) <= (JumpLimit - 1) * |detected|
    decreases |detected|
  {
    if detected != [] {
      SumAfterBounds(detected[0], detected[1..]);
    }
  }

  /** Extending a run by one detection adds that detection's advance. */
  lemma {:induction false} SumAfterSnoc(from: int, detected: seq<int>, next: int)
    ensures SumAfter(from, detected + [next]) == SumAfter(from, detected) + Advance(PhaseAfter(from, detected), next)
    decreases |detected|
  {
    if detected != [] {
      assert (detected + [next])[1..] == detected[1..] + [next];
      SumAfterSnoc(detected[0], detected[1..], next);
    }
  }

  /** Every detection is one step ahead of the phase before it. */
  ghost predicate SteadyRotation(from: int, detected: seq<int>)
  {
    (|detected| > 0 ==> detected[0] == (from + 1) % Estimator.Steps) &&
    forall i | 0 < i < |detected| :: detected[i] == (detected[i - 1] + 1) % Estimator.Steps
  }

  /** A rotor advancing one step per detection accumulates one per detection. */
  lemma {:induction false} SteadyRotationCounts(from: int, detected: seq<int>)
    requires SteadyRotation(from, detected)
    ensures SumAfter(from, detected) == |detected|
    decreases |detected|
  {
    if detected != [] {
      assert SteadyRotation(detected[0], detected[1..]) by {
        forall i | 0 < i < |detected[1..]|
          ensures detected[1..][i] == (detected[1..][i - 1] + 1) % Estimator.Steps
        {
          assert detected[1..][i] == detected[i + 1];
        }
      }
      SteadyRotationCounts(detected[0], detected[1..]);
      assert detected[0] == (from + 1) % Estimator.Steps;
      assert (detected[0] - from) % Estimator.Steps == 1;
    }
  }

  /** Two worked cases: a forward wrap 23 -> 0 adds 1; a backward jump 0 -> 23 is refused. */
  lemma WorkedCases()
    ensures Advance(23, 0) == 1 && PhaseAfter(23, [0]) == 0
    ensures Advance(0, 23) == 0 && PhaseAfter(0, [23]) == 23
  {
  }
}
