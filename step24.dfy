/**
  The 24-step commutation engine of the firmware header step24.h: the two
  constant tables, the duty synthesizer, the phase estimator computed in
  eight-bit unsigned arithmetic, the phase tracker and the velocity snapshot,
  all acting on the header's global state, modelled as the fields of Engine.
*/
module Step24 {
  import opened Wrappers
  import Estimator
  import Tracker
  import Modular

  /** The compiler's plain `char`: unsigned, eight bits. */
  type Byte = x: int | 0 <= x < 256

  /** `unsigned short`: sixteen bits. */
  type Word = x: int | 0 <= x < 65536

  /** A cell of the amplitude table. */
  type Magnitude = x: int | 0 <= x <= 127

  /** Storing into a `char` keeps the value modulo 256. */
  function Wrap8(x: int): (r: Byte)
    ensures 0 <= x < 256 ==> r == x
    ensures -256 <= x < 0 ==> r == x + 256
    ensures 256 <= x < 512 ==> r == x - 256
  {
    x % 256
  }

  /** Storing into an `unsigned short` keeps the value modulo 65536. */
  function Wrap16(x: int): (r: Word)
    ensures 0 <= x < 65536 ==> r == x
    ensures 65536 <= x < 131072 ==> r == x - 65536
  {
    x % 65536
  }

  const StepMax := 23
  const AmpMax := 61

  /** Duty value of a 50% PWM cycle, around which every output swings. */
  const Center := 128

  /**
    62 amplitude rows of 4 magnitudes each, row `amp` starting at `amp * 4`.
    The rows are grouped eight at a time only to keep each literal shallow.
  */
  const StepValue: seq<Magnitude> :=
    (([ 0, 0, 0, 0,
          3, 6, 7, 8,
          4, 7, 9, 10,
          5, 9, 11, 12,
          6, 10, 13, 14,
          7, 12, 15, 16,
          7, 13, 17, 18,
          8, 15, 18, 20 ]
      + [ 9, 16, 20, 22,
          10, 18, 22, 24,
          11, 19, 24, 26,
          11, 20, 26, 28,
          12, 22, 28, 30,
          13, 23, 30, 32,
          14, 25, 31, 34,
          15, 26, 33, 36 ])
     + ([ 15, 28, 35, 38,
          16, 29, 37, 40,
          17, 31, 39, 42,
          18, 32, 41, 44,
          19, 34, 42, 46,
          20, 35, 44, 48,
          20, 36, 46, 50,
          21, 38, 48, 52 ]
      + [ 22, 39, 50, 54,
          23, 41, 52, 56,
          24, 42, 53, 58,
          24, 44, 55, 60,
          25, 45, 57, 62,
          26, 47, 59, 64,
          27, 48, 61, 66,
          28, 50, 63, 68 ]))
    + (([ 28, 51, 65, 70,
          29, 53, 66, 72,
          30, 54, 68, 74,
          31, 55, 70, 76,
          32, 57, 72, 78,
          33, 58, 74, 80,
          33, 60, 76, 82,
          34, 61, 77, 84 ]
      + [ 35, 63, 79, 86,
          36, 64, 81, 88,
          37, 66, 83, 90,
          37, 67, 85, 92,
          38, 69, 87, 94,
          39, 70, 89, 96,
          40, 71, 90, 98,
          41, 73, 92, 99 ])
     + ([ 42, 74, 94, 101,
          42, 76, 96, 103,
          43, 77, 98, 105,
          44, 79, 100, 107,
          45, 80, 101, 109,
          46, 82, 103, 111,
          46, 83, 105, 113,
          47, 85, 107, 115 ]
      + [ 48, 86, 109, 117,
          49, 88, 111, 119,
          50, 89, 112, 121,
          50, 90, 114, 123,
          51, 92, 116, 125,
          52, 93, 118, 127 ]))

  /**
    Two bytes per step. The first is the u descriptor; the second packs the
    v descriptor in its low nibble and the w descriptor in its high nibble.
    A descriptor holds a column (bits 0-1), MINUS (bit 2) and ZERO (bit 3).
  */
  const StepIndex: seq<Byte> :=
    [ 0x1, 0x71,
      0x2, 0x70,
      0x3, 0x78,
      0x3, 0x64,
      0x3, 0x55,
      0x3, 0x46,
      0x3, 0x87,
      0x2, 0x07,
      0x1, 0x17,
      0x0, 0x27,
      0x8, 0x37,
      0x4, 0x36 ]
    + [ 0x5, 0x35,
      0x6, 0x34,
      0x7, 0x38,
      0x7, 0x20,
      0x7, 0x11,
      0x7, 0x02,
      0x7, 0x83,
      0x6, 0x43,
      0x5, 0x53,
      0x4, 0x63,
      0x8, 0x73,
      0x0, 0x72 ]

  /** `d & STEP24_VALUE_MASK`: which column of the amplitude row. Column, MINUS and ZERO make up the low nibble. */
  function Column(d: Byte): (c: nat)
    ensures c <= 3
    ensures d % 16 == c + (if IsMinus(d) then 4 else 0) + (if IsZero(d) then 8 else 0)
  {
    NibbleFields(d);
    d % 4
  }

  /** `d & STEP24_VALUE_MINUS`: the output swings below the center. */
  predicate IsMinus(d: Byte)
    ensures IsMinus(d) <==> 4 <= d % 8
  {
    NibbleFields(d);
    d / 4 % 2 == 1
  }

  /** `d & STEP24_VALUE_ZERO`: the output sits at the center. */
  predicate IsZero(d: Byte)
    ensures IsZero(d) <==> 8 <= d % 16
  {
    NibbleFields(d);
    d / 8 % 2 == 1
  }

  /** The low three and four bits of d, from the column, MINUS and ZERO bits. */
  lemma NibbleFields(d: Byte)
    ensures d % 8 == 4 * (d / 4 % 2) + d % 4
    ensures d % 16 == 8 * (d / 8 % 2) + d % 8
  {
    Modular.DivModUnique(d, d / 4 / 2, 4 * (d / 4 % 2) + d % 4, 8);
    Modular.DivModUnique(d, d / 8 / 2, 8 * (d / 8 % 2) + d % 8, 16);
  }

  datatype Descriptors = Descriptors(u: Byte, v: Byte, w: Byte)

  /** The three descriptors of a step, the second index byte split into its two nibbles. */
  function DescriptorsAt(step: Byte): (r: Descriptors)
    requires step <= StepMax
    ensures r.u == StepIndex[step * 2]
    ensures r.v < 16 && r.w < 16
  {
    var packed := StepIndex[step * 2 + 1];
    Descriptors(StepIndex[step * 2], packed % 16, packed / 16)
  }

  /** The magnitude in row `amp`, column `column` of the amplitude table. */
  function RowMagnitude(amp: Byte, column: nat): Magnitude
    requires amp <= AmpMax && column < 4
  {
    StepValue[amp * 4 + column]
  }

  /**
    The duty one output gets from descriptor `d` at amplitude `amp`: the
    center, moved by the magnitude of the descriptor's column in row `amp`,
    downwards under MINUS, not at all under ZERO.
  */
  function OutputDuty(amp: Byte, d: Byte): (duty: Byte)
    requires amp <= AmpMax
    ensures 1 <= duty <= 255
    ensures IsZero(d) ==> duty == Center
    ensures IsMinus(d) ==> duty <= Center
    ensures !IsMinus(d) ==> duty >= Center
    ensures !IsZero(d) ==>
      duty == if IsMinus(d) then Center - RowMagnitude(amp, Column(d)) else Center + RowMagnitude(amp, Column(d))
  {
    var magnitude := if IsZero(d) then 0 else RowMagnitude(amp, Column(d));
    if IsMinus(d) then Center - magnitude else Center + magnitude
  }

  /** The low nibble is v, the high nibble w: together they give back the packed byte. */
  lemma DescriptorsRepack(step: Byte)
    requires step <= StepMax
    ensures DescriptorsAt(step).w * 16 + DescriptorsAt(step).v == StepIndex[step * 2 + 1]
  {
    var packed := StepIndex[step * 2 + 1];
    NibblesRecombine(packed);
  }

  lemma NibblesRecombine(x: Byte)
    ensures x / 16 * 16 + x % 16 == x
  {
  }

  /**
    One output of step24_set_duty: load the magnitude from row `amp`, which
    starts at `amp * 4`, clear it under ZERO, then swing from the center,
    downwards under MINUS.
  */
  method SwingOutput(amp: Byte, d: Byte) returns (duty: Byte)
    requires amp <= AmpMax
    ensures duty == OutputDuty(amp, d)
  {
    duty := RowMagnitude(amp, Column(d));
    if IsZero(d) { duty := 0; }
    if IsMinus(d) { duty := Center - duty; } else { duty := Center + duty; }
  }

  datatype DutyTriple = DutyTriple(u: Byte, v: Byte, w: Byte)

  /** The three duties of `step` at amplitude `amp`; all lie in 1..255. */
  function Duty(amp: Byte, step: Byte): (r: DutyTriple)
    requires amp <= AmpMax && step <= StepMax
    ensures 1 <= r.u <= 255 && 1 <= r.v <= 255 && 1 <= r.w <= 255
  {
    var ds := DescriptorsAt(step);
    DutyTriple(OutputDuty(amp, ds.u), OutputDuty(amp, ds.v), OutputDuty(amp, ds.w))
  }

  /** Row 0 of the amplitude table is all zero: every step is at the center. */
  lemma ZeroAmplitudeIsCentered(step: Byte)
    requires step <= StepMax
    ensures Duty(0, step) == DutyTriple(Center, Center, Center)
  {
    var ds := DescriptorsAt(step);
    ZeroRowIsCentered(ds.u);
    ZeroRowIsCentered(ds.v);
    ZeroRowIsCentered(ds.w);
  }

  lemma ZeroRowIsCentered(d: Byte)
    ensures OutputDuty(0, d) == Center
  {
    var c := Column(d);
    assert StepValue[..4] == [0, 0, 0, 0];
    assert RowMagnitude(0, c) == StepValue[..4][c];
  }

  /** The largest magnitude, 127, is reached: step 0 drives w down to 128 - 127 = 1. */
  lemma LowestDutyReached()
    ensures Duty(AmpMax, 0).w == 1
  {
    assert StepIndex[1] == 0x71;
    assert DescriptorsAt(0) == Descriptors(1, 1, 7);
    assert StepValue[247] == 127;
  }

  /** Step 6 drives u up to 128 + 127 = 255. */
  lemma HighestDutyReached()
    ensures Duty(AmpMax, 6).u == 255
  {
    assert StepIndex[12] == 0x3 && StepIndex[13] == 0x87;
    assert DescriptorsAt(6) == Descriptors(3, 7, 8);
    assert StepValue[247] == 127;
  }

  /** The descriptors of the 24 steps, as DescriptorsAt unpacks them from the index table. */
  const DescriptorTable: seq<Descriptors> :=
    [ Descriptors(1, 1, 7), Descriptors(2, 0, 7), Descriptors(3, 8, 7), Descriptors(3, 4, 6),
      Descriptors(3, 5, 5), Descriptors(3, 6, 4), Descriptors(3, 7, 8), Descriptors(2, 7, 0),
      Descriptors(1, 7, 1), Descriptors(0, 7, 2), Descriptors(8, 7, 3), Descriptors(4, 6, 3),
      Descriptors(5, 5, 3), Descriptors(6, 4, 3), Descriptors(7, 8, 3), Descriptors(7, 0, 2),
      Descriptors(7, 1, 1), Descriptors(7, 2, 0), Descriptors(7, 3, 8), Descriptors(6, 3, 4),
      Descriptors(5, 3, 5), Descriptors(4, 3, 6), Descriptors(8, 3, 7), Descriptors(0, 2, 7) ]

  /** Steps 0 to 3 of the index table, unpacked. */
  lemma DescriptorsUnpacked0To3()
    ensures forall step | 0 <= step <= 3 :: DescriptorsAt(step) == DescriptorTable[step]
  {
    assert StepIndex[0] == 0x1 && StepIndex[1] == 0x71;
    assert StepIndex[2] == 0x2 && StepIndex[3] == 0x70;
    assert StepIndex[4] == 0x3 && StepIndex[5] == 0x78;
    assert StepIndex[6] == 0x3 && StepIndex[7] == 0x64;
  }

  /** Steps 4 to 7 of the index table, unpacked. */
  lemma DescriptorsUnpacked4To7()
    ensures forall step | 4 <= step <= 7 :: DescriptorsAt(step) == DescriptorTable[step]
  {
    assert StepIndex[8] == 0x3 && StepIndex[9] == 0x55;
    assert StepIndex[10] == 0x3 && StepIndex[11] == 0x46;
    assert StepIndex[12] == 0x3 && StepIndex[13] == 0x87;
    assert StepIndex[14] == 0x2 && StepIndex[15] == 0x7;
  }

  /** Steps 8 to 11 of the index table, unpacked. */
  lemma DescriptorsUnpacked8To11()
    ensures forall step | 8 <= step <= 11 :: DescriptorsAt(step) == DescriptorTable[step]
  {
    assert StepIndex[16] == 0x1 && StepIndex[17] == 0x17;
    assert StepIndex[18] == 0x0 && StepIndex[19] == 0x27;
    assert StepIndex[20] == 0x8 && StepIndex[21] == 0x37;
    assert StepIndex[22] == 0x4 && StepIndex[23] == 0x36;
  }

  /** Steps 12 to 15 of the index table, unpacked. */
  lemma DescriptorsUnpacked12To15()
    ensures forall step | 12 <= step <= 15 :: DescriptorsAt(step) == DescriptorTable[step]
  {
    assert StepIndex[24] == 0x5 && StepIndex[25] == 0x35;
    assert StepIndex[26] == 0x6 && StepIndex[27] == 0x34;
    assert StepIndex[28] == 0x7 && StepIndex[29] == 0x38;
    assert StepIndex[30] == 0x7 && StepIndex[31] == 0x20;
  }

  /** Steps 16 to 19 of the index table, unpacked. */
  lemma DescriptorsUnpacked16To19()
    ensures forall step | 16 <= step <= 19 :: DescriptorsAt(step) == DescriptorTable[step]
  {
    assert StepIndex[32] == 0x7 && StepIndex[33] == 0x11;
    assert StepIndex[34] == 0x7 && StepIndex[35] == 0x2;
    assert StepIndex[36] == 0x7 && StepIndex[37] == 0x83;
    assert StepIndex[38] == 0x6 && StepIndex[39] == 0x43;
  }

  /** Steps 20 to 23 of the index table, unpacked. */
  lemma DescriptorsUnpacked20To23()
    ensures forall step | 20 <= step <= 23 :: DescriptorsAt(step) == DescriptorTable[step]
  {
    assert StepIndex[40] == 0x5 && StepIndex[41] == 0x53;
    assert StepIndex[42] == 0x4 && StepIndex[43] == 0x63;
    assert StepIndex[44] == 0x8 && StepIndex[45] == 0x73;
    assert StepIndex[46] == 0x0 && StepIndex[47] == 0x72;
  }

  /** Unpacking the index table gives DescriptorTable, whose descriptors are all nibbles. */
  lemma DescriptorsUnpacked(step: Byte)
    requires step <= StepMax
    ensures DescriptorsAt(step) == DescriptorTable[step]
    ensures DescriptorsAt(step).u < 16
  {
    DescriptorsUnpacked0To3();
    DescriptorsUnpacked4To7();
    DescriptorsUnpacked8To11();
    DescriptorsUnpacked12To15();
    DescriptorsUnpacked16To19();
    DescriptorsUnpacked20To23();
  }

  /**
    Eight steps on, a third of a turn, each output takes the descriptor the
    next output had: u the one of v, v the one of w, w the one of u.
  */
  lemma TableThirdTurn()
    ensures forall step | 0 <= step < 16 ::
      DescriptorTable[step + 8] == Descriptors(DescriptorTable[step].v, DescriptorTable[step].w, DescriptorTable[step].u)
  {
  }

  /**
    The descriptor of the same output half a turn later: MINUS toggled, and a
    ZERO descriptor left as it is.
  */
  function Flip(d: Byte): (f: Byte)
    requires d < 16
    ensures f < 16 && Column(f) == Column(d) && IsZero(f) == IsZero(d)
    ensures !IsZero(d) ==> IsMinus(f) == !IsMinus(d)
  {
    if IsZero(d) then d else if IsMinus(d) then d - 4 else d + 4
  }

  /** Flip on the descriptors the table uses, 0..8: columns with and without MINUS, and the bare ZERO. */
  const Flipped: seq<Byte> := [4, 5, 6, 7, 0, 1, 2, 3, 8]

  lemma FlipValues()
    ensures forall d | 0 <= d < |Flipped| :: Flip(d) == Flipped[d]
  {
  }

  /** Twelve steps on, half a turn, every output's descriptor is flipped. */
  lemma TableHalfTurn()
    ensures forall step | 0 <= step < 12 ::
      var ds := DescriptorTable[step];
      ds.u <= 8 && ds.v <= 8 && ds.w <= 8 &&
      DescriptorTable[step + 12] == Descriptors(Flipped[ds.u], Flipped[ds.v], Flipped[ds.w])
  {
  }

  /** A flipped descriptor drives its output to the mirror image about the center. */
  lemma FlipMirrors(amp: Byte, d: Byte)
    requires amp <= AmpMax && d < 16
    ensures OutputDuty(amp, Flip(d)) == 2 * Center - OutputDuty(amp, d)
  {
    var f := Flip(d);
    if !IsZero(d) {
      var m := RowMagnitude(amp, Column(d));
      assert RowMagnitude(amp, Column(f)) == m;
      if IsMinus(d) {
        assert OutputDuty(amp, d) == Center - m && OutputDuty(amp, f) == Center + m;
      } else {
        assert OutputDuty(amp, d) == Center + m && OutputDuty(amp, f) == Center - m;
      }
    }
  }

  /**
    The three outputs are 120 degrees apart: eight steps on, the duties are
    those of the step before, moved on by one output.
  */
  lemma ThirdTurn(amp: Byte, step: Byte)
    requires amp <= AmpMax && step < 16
    ensures var a := Duty(amp, step); Duty(amp, step + 8) == DutyTriple(a.v, a.w, a.u)
  {
    DescriptorsUnpacked(step);
    DescriptorsUnpacked(step + 8);
    TableThirdTurn();
  }

  /** Twelve steps on, every duty is mirrored about the center. */
  lemma HalfTurn(amp: Byte, step: Byte)
    requires amp <= AmpMax && step < 12
    ensures var a := Duty(amp, step);
      Duty(amp, step + 12) == DutyTriple(2 * Center - a.u, 2 * Center - a.v, 2 * Center - a.w)
  {
    DescriptorsUnpacked(step);
    DescriptorsUnpacked(step + 12);
    TableHalfTurn();
    FlipValues();
    var ds := DescriptorsAt(step);
    FlipMirrors(amp, ds.u);
    FlipMirrors(amp, ds.v);
    FlipMirrors(amp, ds.w);
  }

  /**
    How far a duty triple is from balanced: the sum of the three outputs'
    deviations from the center. A balanced three-phase output gives 0.
  */
  function Imbalance(t: DutyTriple): int
  {
    t.u + t.v + t.w - 3 * Center
  }

  /** A third of a turn moves the duties round the outputs and leaves their sum alone. */
  lemma ImbalanceThirdTurn(amp: Byte, step: Byte)
    requires amp <= AmpMax && step < 16
    ensures Imbalance(Duty(amp, step + 8)) == Imbalance(Duty(amp, step))
  {
    ThirdTurn(amp, step);
  }

  /** Half a turn mirrors every duty about the center and so negates the imbalance. */
  lemma ImbalanceHalfTurn(amp: Byte, step: Byte)
    requires amp <= AmpMax && step < 12
    ensures Imbalance(Duty(amp, step + 12)) == -Imbalance(Duty(amp, step))
  {
    HalfTurn(amp, step);
  }

  /** The sign of the imbalance at each of the 24 steps: it repeats every 8 steps. */
  const ImbalanceSign: seq<int> :=
    [ 1, 1, 0, -1, -1, -1, 0, 1,
      1, 1, 0, -1, -1, -1, 0, 1,
      1, 1, 0, -1, -1, -1, 0, 1 ]

  /** The imbalance of the even steps 0 and 8 of row amp, out of its magnitudes m1 and m3. */
  function EvenImbalance(amp: Byte): int
    requires amp <= AmpMax
  {
    2 * RowMagnitude(amp, 1) - RowMagnitude(amp, 3)
  }

  /** The imbalance of the odd steps 1 and 9 of row amp, out of its magnitudes m0, m2 and m3. */
  function OddImbalance(amp: Byte): int
    requires amp <= AmpMax
  {
    RowMagnitude(amp, 0) + RowMagnitude(amp, 2) - RowMagnitude(amp, 3)
  }

  /**
    The imbalance `step` should have: the even or the odd size, by the
    parity of the step, with the sign the table gives it.
  */
  function ImbalancePattern(even: int, odd: int, step: nat): int
    requires step <= StepMax
  {
    var size := if step % 2 == 0 then even else odd;
    if ImbalanceSign[step] == 0 then 0 else if ImbalanceSign[step] > 0 then size else -size
  }

  /** Four steps on, the pattern changes sign. */
  lemma PatternQuarterTurn(even: int, odd: int, step: nat)
    requires 4 <= step <= StepMax
    ensures ImbalancePattern(even, odd, step) == -ImbalancePattern(even, odd, step - 4)
  {
  }

  /** Four steps on, the imbalance changes sign: half a turn, less a third of one. */
  lemma ImbalanceQuarterTurn(amp: Byte, step: Byte)
    requires amp <= AmpMax && 4 <= step <= StepMax
    ensures Imbalance(Duty(amp, step)) == -Imbalance(Duty(amp, step - 4))
  {
    if step < 16 {
      ImbalanceQuarterTurnEarly(amp, step);
    } else {
      ImbalanceQuarterTurnLate(amp, step);
    }
  }

  lemma ImbalanceQuarterTurnEarly(amp: Byte, step: Byte)
    requires amp <= AmpMax && 4 <= step < 16
    ensures Imbalance(Duty(amp, step)) == -Imbalance(Duty(amp, step - 4))
  {
    ImbalanceHalfTurn(amp, step - 4);
    ImbalanceThirdTurn(amp, step);
  }

  lemma ImbalanceQuarterTurnLate(amp: Byte, step: Byte)
    requires amp <= AmpMax && 16 <= step <= StepMax
    ensures Imbalance(Duty(amp, step)) == -Imbalance(Duty(amp, step - 4))
  {
    ImbalanceThirdTurn(amp, step - 8);
    ImbalanceHalfTurn(amp, step - 16);
    ImbalanceThirdTurn(amp, step - 16);
  }

  /**
    Descriptors 0 to 3 swing up by their column's magnitude, 4 to 7 down by
    it, and 8 stays at the center.
  */
  lemma RowOutputs(amp: Byte)
    requires amp <= AmpMax
    ensures OutputDuty(amp, 0) == Center + RowMagnitude(amp, 0) && OutputDuty(amp, 4) == Center - RowMagnitude(amp, 0)
    ensures OutputDuty(amp, 1) == Center + RowMagnitude(amp, 1) && OutputDuty(amp, 5) == Center - RowMagnitude(amp, 1)
    ensures OutputDuty(amp, 2) == Center + RowMagnitude(amp, 2) && OutputDuty(amp, 6) == Center - RowMagnitude(amp, 2)
    ensures OutputDuty(amp, 3) == Center + RowMagnitude(amp, 3) && OutputDuty(amp, 7) == Center - RowMagnitude(amp, 3)
    ensures OutputDuty(amp, 8) == Center
  {
  }

  /** The pattern's values at the first four steps. */
  lemma PatternFirstSteps(even: int, odd: int)
    ensures ImbalancePattern(even, odd, 0) == even && ImbalancePattern(even, odd, 1) == odd
    ensures ImbalancePattern(even, odd, 2) == 0 && ImbalancePattern(even, odd, 3) == -odd
  {
  }

  /** The first four steps follow the pattern. */
  lemma ImbalanceFirstSteps(amp: Byte, step: Byte)
    requires amp <= AmpMax && step < 4
    ensures Imbalance(Duty(amp, step)) == ImbalancePattern(EvenImbalance(amp), OddImbalance(amp), step)
  {
    if step == 0 {
      ImbalanceStep0(amp, step);
    } else if step == 1 {
      ImbalanceStep1(amp, step);
    } else if step == 2 {
      ImbalanceStep2(amp, step);
    } else {
      ImbalanceStep3(amp, step);
    }
  }

  // The first four steps, one lemma each, so that the step is a constant in each.

  lemma ImbalanceStep0(amp: Byte, step: Byte)
    requires amp <= AmpMax && step == 0
    ensures Imbalance(Duty(amp, step)) == ImbalancePattern(EvenImbalance(amp), OddImbalance(amp), step)
  {
    assert DescriptorsAt(0) == Descriptors(1, 1, 7) by { DescriptorsUnpacked0To3(); }
    assert Duty(amp, 0) == DutyTriple(OutputDuty(amp, 1), OutputDuty(amp, 1), OutputDuty(amp, 7));
    RowOutputs(amp);
    assert Imbalance(Duty(amp, 0)) == EvenImbalance(amp);
    PatternFirstSteps(EvenImbalance(amp), OddImbalance(amp));
  }

  lemma ImbalanceStep1(amp: Byte, step: Byte)
    requires amp <= AmpMax && step == 1
    ensures Imbalance(Duty(amp, step)) == ImbalancePattern(EvenImbalance(amp), OddImbalance(amp), step)
  {
    assert DescriptorsAt(1) == Descriptors(2, 0, 7) by { DescriptorsUnpacked0To3(); }
    assert Duty(amp, 1) == DutyTriple(OutputDuty(amp, 2), OutputDuty(amp, 0), OutputDuty(amp, 7));
    RowOutputs(amp);
    assert Imbalance(Duty(amp, 1)) == OddImbalance(amp);
    PatternFirstSteps(EvenImbalance(amp), OddImbalance(amp));
  }

  lemma ImbalanceStep2(amp: Byte, step: Byte)
    requires amp <= AmpMax && step == 2
    ensures Imbalance(Duty(amp, step)) == ImbalancePattern(EvenImbalance(amp), OddImbalance(amp), step)
  {
    assert DescriptorsAt(2) == Descriptors(3, 8, 7) by { DescriptorsUnpacked0To3(); }
    assert Duty(amp, 2) == DutyTriple(OutputDuty(amp, 3), OutputDuty(amp, 8), OutputDuty(amp, 7));
    RowOutputs(amp);
    assert Imbalance(Duty(amp, 2)) == 0;
    PatternFirstSteps(EvenImbalance(amp), OddImbalance(amp));
  }

  lemma ImbalanceStep3(amp: Byte, step: Byte)
    requires amp <= AmpMax && step == 3
    ensures Imbalance(Duty(amp, step)) == ImbalancePattern(EvenImbalance(amp), OddImbalance(amp), step)
  {
    assert DescriptorsAt(3) == Descriptors(3, 4, 6) by { DescriptorsUnpacked0To3(); }
    assert Duty(amp, 3) == DutyTriple(OutputDuty(amp, 3), OutputDuty(amp, 4), OutputDuty(amp, 6));
    RowOutputs(amp);
    assert Imbalance(Duty(amp, 3)) == -OddImbalance(amp);
    PatternFirstSteps(EvenImbalance(amp), OddImbalance(amp));
  }

  /**
    The outputs do not sum to the center at every step: the imbalance
    repeats every 8 steps; it is 0 at steps 2 and 6 (mod 8), the even size
    at the other even steps and the odd size at the odd steps, taken as
    +size at steps 7, 0 and 1 (mod 8) and as -size at steps 3, 4 and 5.
  */
  lemma {:induction false} ImbalanceByStep(amp: Byte, step: Byte)
    requires amp <= AmpMax && step <= StepMax
    ensures Imbalance(Duty(amp, step)) == ImbalancePattern(EvenImbalance(amp), OddImbalance(amp), step)
  {
    if step < 4 {
      ImbalanceFirstSteps(amp, step);
    } else {
      ImbalanceByStep(amp, step - 4);
      ImbalanceQuarterTurn(amp, step);
      PatternQuarterTurn(EvenImbalance(amp), OddImbalance(amp), step);
    }
  }

  /**
    At the amplitude the main loop uses, the imbalance reaches 59 at the
    even steps and 43 at the odd ones, against a swing of 127 per output.
  */
  lemma FullAmplitudeImbalance()
    ensures Imbalance(Duty(AmpMax, 0)) == 59 && Imbalance(Duty(AmpMax, 1)) == 43
  {
    FullAmplitudeSizes();
    ImbalanceStep0(AmpMax, 0);
    ImbalanceStep1(AmpMax, 1);
    PatternFirstSteps(59, 43);
  }

  /** Row 61 holds the magnitudes 52, 93, 118 and 127. */
  lemma FullAmplitudeSizes()
    ensures EvenImbalance(AmpMax) == 59 && OddImbalance(AmpMax) == 43
  {
    assert RowMagnitude(AmpMax, 0) == 52 && RowMagnitude(AmpMax, 1) == 93;
    assert RowMagnitude(AmpMax, 2) == 118 && RowMagnitude(AmpMax, 3) == 127;
  }

  datatype Waves = Waves(u: Byte, v: Byte, w: Byte)

  /**
    The three working waves: the halved samples, the third axis derived from
    them, and the u and v waves moved up by 64 so that what follows stays
    inside eight bits.
  */
  function WavesOf(sensU: Byte, sensV: Byte): (r: Waves)
    ensures 64 <= r.u <= 191 && 64 <= r.v <= 191
    ensures r.u == sensU / 2 + 64 && r.v == sensV / 2 + 64
    ensures 1 <= r.w <= 255 && r.w == 255 - sensU / 2 - sensV / 2
  {
    var u := sensU / 2;
    var v := sensV / 2;
    Waves(Wrap8(u + 64), Wrap8(v + 64), Wrap8(Wrap8(255 - u) - v))
  }

  /** The two-by-two shifts of step24_set_phase compute the high-frequency part. */
  lemma ShiftsAreHighFreq(x: Byte)
    ensures Wrap8(x / 2 / 2 - x / 2 / 2 / 2 / 2) == Estimator.HighFreq(x)
  {
  }

  /** The six shifted estimates, each kept in a `char`. */
  function EstimatesOf(sensU: Byte, sensV: Byte): (r: Estimator.Estimates)
    ensures 28 <= r.uDel <= 179 && 28 <= r.vAdv <= 179
    ensures 16 <= r.uAdv <= 191 && 16 <= r.vDel <= 191
  {
    var w := WavesOf(sensU, sensV);
    var zu, zv, zw := Estimator.HighFreq(w.u), Estimator.HighFreq(w.v), Estimator.HighFreq(w.w);
    Estimator.Estimates(
      Wrap8(w.u - zv), Wrap8(w.u - zw),
      Wrap8(w.v - zw), Wrap8(w.v - zu),
      Wrap8(w.w - zu), Wrap8(w.w - zv))
  }

  /** The four estimates derived from u and v never wrap around. */
  lemma UvEstimatesNeverWrap(sensU: Byte, sensV: Byte)
    ensures var w, e := WavesOf(sensU, sensV), EstimatesOf(sensU, sensV);
      && e.uDel == w.u - Estimator.HighFreq(w.v) && e.uAdv == w.u - Estimator.HighFreq(w.w)
      && e.vDel == w.v - Estimator.HighFreq(w.w) && e.vAdv == w.v - Estimator.HighFreq(w.u)
  {
  }

  /** The estimates derived from w do wrap: for two full-scale samples w_adv is 1 - 36 = -35, kept as 221. */
  lemma WEstimatesCanWrap()
    ensures var w, e := WavesOf(255, 255), EstimatesOf(255, 255);
      && w.w - Estimator.HighFreq(w.v) == -35 && e.wAdv == 221
      && w.w - Estimator.HighFreq(w.u) == -35 && e.wDel == 221
  {
  }

  /** The phase the cascade detects for a pair of samples. */
  function DetectedPhase(sensU: Byte, sensV: Byte): (p: Byte)
    ensures p < Estimator.Steps
  {
    var e := EstimatesOf(sensU, sensV);
    Estimator.Classify(e)
  }

  /** The detected phase of two samples, found by running the six blocks. */
  lemma DetectedByBlocks(sensU: Byte, sensV: Byte)
    ensures Some(DetectedPhase(sensU, sensV)) == Estimator.RunBlocks(EstimatesOf(sensU, sensV))
  {
    Estimator.LastWriteByBlocks(EstimatesOf(sensU, sensV));
  }

  /** Phase p is detected for some pair of samples. */
  ghost predicate Detectable(p: int)
  {
    exists sensU: Byte, sensV: Byte :: DetectedPhase(sensU, sensV) == p
  }

  /**
    A pair of samples detected as step p, shown through the waves w and the
    estimates e they give.
  */
  lemma Detects(sensU: Byte, sensV: Byte, w: Waves, e: Estimator.Estimates, p: int)
    requires WavesOf(sensU, sensV) == w
    requires EstimatesOf(sensU, sensV) == e
    requires Estimator.RunBlocks(e) == Some(p)
    ensures DetectedPhase(sensU, sensV) == p
  {
    DetectedByBlocks(sensU, sensV);
  }

  /** Steps 0 to 3 are detected, each for the samples given below. */
  lemma DetectsPhases0To3()
    ensures forall p | 0 <= p <= 3 :: Detectable(p)
  {
    Detects(108, 252, Waves(118, 190, 75), Estimator.Estimates(82, 104, 176, 168, 53, 39), 0);
    Detects(128, 130, Waves(128, 129, 126), Estimator.Estimates(104, 104, 105, 105, 102, 102), 1);
    Detects(124, 124, Waves(126, 126, 131), Estimator.Estimates(102, 102, 102, 102, 107, 107), 2);
    Detects(130, 128, Waves(129, 128, 126), Estimator.Estimates(105, 105, 104, 104, 102, 102), 3);
  }

  /** Steps 4 to 7 are detected, each for the samples given below. */
  lemma DetectsPhases4To7()
    ensures forall p | 4 <= p <= 7 :: Detectable(p)
  {
    Detects(136, 128, Waves(132, 128, 123), Estimator.Estimates(108, 109, 105, 103, 98, 99), 4);
    Detects(132, 126, Waves(130, 127, 126), Estimator.Estimates(106, 106, 103, 103, 102, 102), 5);
    Detects(138, 122, Waves(133, 125, 125), Estimator.Estimates(109, 109, 101, 100, 100, 101), 6);
    Detects(132, 124, Waves(130, 126, 127), Estimator.Estimates(106, 106, 102, 102, 103, 103), 7);
  }

  /** Steps 8 to 11 are detected, each for the samples given below. */
  lemma DetectsPhases8To11()
    ensures forall p | 8 <= p <= 11 :: Detectable(p)
  {
    Detects(136, 118, Waves(132, 123, 128), Estimator.Estimates(109, 108, 99, 98, 103, 105), 8);
    Detects(130, 124, Waves(129, 126, 128), Estimator.Estimates(105, 105, 102, 102, 104, 104), 9);
    Detects(124, 134, Waves(126, 131, 126), Estimator.Estimates(102, 102, 107, 107, 102, 102), 10);
    Detects(128, 120, Waves(128, 124, 131), Estimator.Estimates(104, 104, 100, 100, 107, 107), 11);
  }

  /** Steps 12 to 15 are detected, each for the samples given below. */
  lemma DetectsPhases12To15()
    ensures forall p | 12 <= p <= 15 :: Detectable(p)
  {
    Detects(104, 0, Waves(116, 64, 203), Estimator.Estimates(104, 78, 26, 42, 181, 191), 12);
    Detects(52, 0, Waves(90, 64, 229), Estimator.Estimates(78, 47, 21, 47, 212, 217), 13);
    Detects(0, 0, Waves(64, 64, 255), Estimator.Estimates(52, 16, 16, 52, 243, 243), 14);
    Detects(0, 52, Waves(64, 90, 229), Estimator.Estimates(47, 21, 47, 78, 217, 212), 15);
  }

  /** Steps 16 to 19 are detected, each for the samples given below. */
  lemma DetectsPhases16To19()
    ensures forall p | 16 <= p <= 19 :: Detectable(p)
  {
    Detects(0, 104, Waves(64, 116, 203), Estimator.Estimates(42, 26, 78, 104, 191, 181), 16);
    Detects(0, 148, Waves(64, 138, 181), Estimator.Estimates(38, 30, 104, 126, 169, 155), 17);
    Detects(0, 176, Waves(64, 152, 167), Estimator.Estimates(35, 33, 121, 140, 155, 138), 18);
    Detects(0, 208, Waves(64, 168, 151), Estimator.Estimates(32, 36, 140, 156, 139, 119), 19);
  }

  /** Steps 20 to 23 are detected, each for the samples given below. */
  lemma DetectsPhases20To23()
    ensures forall p | 20 <= p <= 23 :: Detectable(p)
  {
    Detects(0, 236, Waves(64, 182, 137), Estimator.Estimates(30, 38, 156, 170, 125, 103), 20);
    Detects(22, 254, Waves(75, 191, 117), Estimator.Estimates(39, 53, 169, 177, 103, 81), 21);
    Detects(50, 252, Waves(89, 190, 104), Estimator.Estimates(53, 69, 170, 173, 87, 68), 22);
    Detects(80, 254, Waves(104, 191, 88), Estimator.Estimates(68, 87, 174, 171, 68, 52), 23);
  }

  /** The phases the cascade detects are exactly the 24 steps: none is unreachable and none lies outside. */
  lemma DetectsEveryPhase()
    ensures forall p :: Detectable(p) <==> 0 <= p < Estimator.Steps
  {
    DetectsPhases0To3();
    DetectsPhases4To7();
    DetectsPhases8To11();
    DetectsPhases12To15();
    DetectsPhases16To19();
    DetectsPhases20To23();
  }

  /**
    The forward distance as step24_set_phase computes it in eight bits: add
    a turn when the new phase is numerically behind, subtract, and drop
    jumps of half a turn or more. For phases of the 24 steps it is exactly
    the tracker's advance.
  */
  lemma ByteDistanceIsAdvance(phase: Byte, detected: Byte)
    requires phase <= StepMax && detected <= StepMax
    ensures var diff := Wrap8(Wrap8((if detected < phase then 24 else 0) + detected) - phase);
      (if diff >= Tracker.JumpLimit then 0 else diff) == Tracker.Advance(phase, detected)
  {
    var d := Tracker.ForwardDistance(phase, detected);
    if detected < phase {
      assert (detected - phase) % 24 == detected - phase + 24;
    } else {
      assert (detected - phase) % 24 == detected - phase;
    }
  }

  /** The global state of the header. */
  class Engine {
    var dutyU: Byte
    var dutyV: Byte
    var dutyW: Byte
    var phase: Byte
    var velocity: Word
    var phaseSum: Word

    /** The phase always holds one of the 24 steps. */
    ghost predicate Valid()
      reads this`phase
    {
      phase <= StepMax
    }

    function Duties(): DutyTriple
      reads this`dutyU, this`dutyV, this`dutyW
    {
      DutyTriple(dutyU, dutyV, dutyW)
    }

    /** The initial values of the globals. */
    constructor ()
      ensures Valid()
      ensures Duties() == DutyTriple(Center, Center, Center)
      ensures phase == 0 && velocity == 0 && phaseSum == 0
    {
      dutyU, dutyV, dutyW := Center, Center, Center;
      phase := 0;
      velocity, phaseSum := 0, 0;
    }

    /** STEP24_SET_VELOCITY: snapshot the accumulator as the velocity and restart it. */
    method SetVelocity()
      modifies this`velocity, this`phaseSum
      ensures velocity == old(phaseSum) && phaseSum == 0
    {
      velocity := phaseSum;
      phaseSum := 0;
    }

    /**
      step24_set_duty: split the step's two index bytes into the three
      descriptors, then set each output from row `amp` of the magnitudes.
    */
    method SetDuty(amp: Byte, step: Byte)
      requires amp <= AmpMax && step <= StepMax
      modifies this`dutyU, this`dutyV, this`dutyW
      ensures Duties() == Duty(amp, step)
    {
      var idxU := StepIndex[step * 2];
      var idxV := StepIndex[step * 2 + 1];
      var idxW := idxV / 16;
      idxV := idxV % 16;
      dutyU := SwingOutput(amp, idxU);
      dutyV := SwingOutput(amp, idxV);
      dutyW := SwingOutput(amp, idxW);
    }

    /**
      step24_set_phase: estimate the phase of the two samples, accumulate
      the forward distance to it unless it is an implausible jump, and make
      it the current phase.
    */
    method SetPhase(sensU: Byte, sensV: Byte)
      requires Valid()
      modifies this`phase, this`phaseSum
      ensures Valid()
      ensures phase == DetectedPhase(sensU, sensV)
      ensures phaseSum == Wrap16(old(phaseSum) + Tracker.Advance(old(phase), phase))
    {
      var e := EstimatesOf(sensU, sensV);
      var found := Estimator.Detect(e);
      Estimator.AlwaysFires(e);
      var detected: Byte := found.value;

      ByteDistanceIsAdvance(phase, detected);
      var phaseDiff: Byte := if detected < phase then 24 else 0;
      phaseDiff := Wrap8(phaseDiff + detected);
      phaseDiff := Wrap8(phaseDiff - phase);
      if phaseDiff >= Tracker.JumpLimit {
        phaseDiff := 0;
      }
      phaseSum := Wrap16(phaseSum + phaseDiff);
      phase := detected;
    }
  }
}
