# 24-step sensorless commutation engine, modelled in Dafny

This project models the core of a motor-controller firmware: the "24-step"
commutation engine of `step24.h`, its caller in `main.c`, and the browser
simulator's `set_phase` in `motor/documents/html/script/phase.js`. The model
covers:

- The **duty synthesizer** `step24_set_duty` (module `Step24`). Two constant
  tables drive it: 62 amplitude rows of 4 magnitudes each, and 24 steps of 2
  index bytes holding nibble descriptors (column, MINUS, ZERO). It writes
  `128 ± magnitude` into the three duty globals.
- The **phase estimator** `step24_set_phase` (modules `Step24` and
  `Estimator`). From two 8-bit samples it builds:
  - three waves, the third derived as `255 - u/2 - v/2`;
  - six shifted estimates, using `z = (x >> 2) - ((x >> 2) >> 2)`.

  A cascade of six comparison blocks against NEUTRAL = 103 then decides the
  phase. Its 24 conditional assignments follow last-write-wins.
- The **phase tracker** (module `Tracker`). The forward distance modulo 24 is
  added to the accumulator unless it is 12 or more. The phase always becomes
  the detected one.
- The **velocity snapshot** `STEP24_SET_VELOCITY` and its caller, the timer
  interrupt `isr` (`Step24.Engine.SetVelocity`, `Control.Isr`).
- The **main loop body** of `main.c` (module `Control`). It runs set_phase,
  then `set_duty(61, step)`, copies the duties to PWM, and does the
  `ii`/`step` bookkeeping in `char` arithmetic.
- The **JavaScript simulator** `set_phase` (module `PhaseSim`). It is the same
  estimator and tracker in unbounded integers, plus an interval counter that
  publishes the velocity on every `interval + 1`-th call.

The globals of `step24.h` are the fields of the class `Step24.Engine`. The
module-level variables of `phase.js` are the fields of `PhaseSim.Simulator`.

Integer widths follow the compiler the firmware is built with:
- a plain `char` is unsigned 8-bit (`Step24.Byte`, wrapped with `Wrap8`);
- `unsigned short` is 16-bit (`Step24.Word`, wrapped with `Wrap16`);
- JavaScript numbers are unbounded `int`.

The main results:
- The cascade **always assigns** a phase, for any six integers
  (`Estimator.AlwaysFires`), and the phase is in 0..23. So the uninitialised
  `detected_phase` of `step24.h` is never read. Conversely, each of the 24
  steps is detected for some pair of samples (`Step24.DetectsEveryPhase`).
- The firmware and the simulator compute the same estimates up to the store
  into a `char`. They detect the same phase whenever `u/2 + v/2 <= 219`
  (`PhaseSim.AgreesWithFirmware`). Beyond that bound the firmware's w
  estimates can wrap modulo 256 and the two can disagree. For samples (186, 254)
  the simulator detects 1 and the firmware 6
  (`PhaseSim.DivergesFromFirmware`).
- Every duty lies in 1..255 and both extremes are reached. Amplitude 0 leaves
  every output at 128.
- The step table is a three-phase pattern. Eight steps on (a third of a
  turn) the duties move round the outputs, u to w, v to u, w to v
  (`Step24.ThirdTurn`). Twelve steps on (half a turn) every duty is
  mirrored about 128 (`Step24.HalfTurn`).
- The three outputs do not always sum to 3 * 128. The deviation repeats
  every 8 steps. It is 0 at steps 2 and 6 (mod 8). Elsewhere its size is
  `2*m1 - m3` at even steps and `m0 + m2 - m3` at odd steps, where m0..m3
  is the amplitude row. The deviation is +size at steps 7, 0 and 1 (mod 8)
  and -size at steps 3, 4 and 5 (`Step24.ImbalanceByStep`). That the sizes
  are positive is stated only for amplitude 61, where they are 59 and 43,
  against a swing of 127 per output (`Step24.FullAmplitudeImbalance`).
- The loop counters follow `step = (n / 200) mod 24` and `ii = n mod 200`
  after n passes (`Control.CountersClosedForm`).

`step24_phase_sum` is an `unsigned short`, so it wraps modulo 65536 and can
drop between two snapshots without a reset. Each pass adds at most 11, so the
accumulation is exact as long as at most 5957 passes separate two snapshots
(`Control.AccumulatorExact`).

## Model

| member | source | states |
|---|---|---|
| Step24.Wrap8 | step24.h:164-189 | a store into an unsigned `char` keeps the value for 0..255 and adds or removes one 256 just outside that range |
| Step24.Wrap16 | step24.h:114-115 | a store into an `unsigned short` keeps the value in range and removes one 65536 just above it |
| Step24.DescriptorsAt | step24.h:122-126 | the u descriptor is the step's first index byte; v and w are the two nibbles of the second byte |
| Step24.DescriptorsRepack | step24.h:124-126 | w is the high nibble and v the low nibble: w * 16 + v gives back the packed byte |
| Step24.Column | step24.h:129-131 | `d & STEP24_VALUE_MASK` is a column 0..3 of the amplitude row; with the MINUS (4) and ZERO (8) bits it makes up the descriptor's low nibble |
| Step24.IsMinus | step24.h:143-157 | the MINUS test holds exactly when the descriptor's remainder modulo 8 is 4 or more, that is bit value 4 is set |
| Step24.IsZero | step24.h:133-141 | the ZERO test holds exactly when the descriptor's remainder modulo 16 is 8 or more, that is bit value 8 is set |
| Step24.OutputDuty | step24.h:128-157 | one output's duty is in 1..255; it is exactly 128 under ZERO, at most 128 under MINUS and at least 128 otherwise; without ZERO it is 128 minus or plus the magnitude from row amp, column `d & 3` |
| Step24.SwingOutput | step24.h:129-157 | the load / clear-under-ZERO / swing-from-128 sequence for one output computes OutputDuty |
| Step24.Duty | step24.h:120-158 | for amp <= 61 and step <= 23 the table reads stay in bounds and all three duties lie in 1..255 |
| Step24.Flip | step24.h:10-12 | flipping a descriptor keeps its column and its ZERO bit and, unless ZERO is set, toggles MINUS |
| Step24.DescriptorsUnpacked | step24.h:81-106 | unpacking the index table gives, step by step, the 24 descriptor triples of DescriptorTable, each u below 16 |
| Step24.TableThirdTurn | step24.h:81-106 | eight steps on, the descriptors are those of the earlier step moved round: (u, v, w) becomes (v, w, u) |
| Step24.TableHalfTurn | step24.h:81-106 | twelve steps on, every descriptor is the flip of the earlier one |
| Step24.FlipMirrors | step24.h:128-157 | a flipped descriptor gives the duty mirrored about 128: the two duties sum to 256 |
| Step24.ThirdTurn | step24.h:120-158 | the outputs are 120 degrees apart: Duty(amp, step + 8) is Duty(amp, step) with u, v, w moved round to v, w, u |
| Step24.HalfTurn | step24.h:120-158 | Duty(amp, step + 12) is Duty(amp, step) with every duty d replaced by 256 - d |
| Step24.RowOutputs | step24.h:128-157 | descriptors 0..3 give 128 plus their column's magnitude, 4..7 give 128 minus it, and 8 gives 128 |
| Step24.ImbalanceThirdTurn | step24.h:120-158 | a third of a turn leaves the sum of the three duties unchanged |
| Step24.ImbalanceHalfTurn | step24.h:120-158 | half a turn negates the deviation of the sum of the duties from 3 * 128 |
| Step24.ImbalanceQuarterTurn | step24.h:120-158 | four steps on, the deviation of the sum of the duties from 3 * 128 changes sign |
| Step24.ImbalanceByStep | step24.h:120-158 | the deviation of u + v + w from 3 * 128 at every step: 0 at steps 2 and 6 mod 8, otherwise 2*m1 - m3 (even steps) or m0 + m2 - m3 (odd steps) of row amp, taken as +size at steps 7, 0, 1 mod 8 and as -size at steps 3, 4, 5 |
| Step24.FullAmplitudeSizes | step24.h:79 | in row 61 the even-step deviation is 59 and the odd-step one 43 |
| Step24.FullAmplitudeImbalance | step24.h:120-158 | at amplitude 61 the duties of step 0 sum to 3 * 128 + 59 and those of step 1 to 3 * 128 + 43 |
| Step24.ZeroAmplitudeIsCentered | step24.h:120-158 | at amplitude 0 every step gives duties (128, 128, 128) |
| Step24.ZeroRowIsCentered | step24.h:18 | row 0 of the amplitude table gives duty 128 for every descriptor |
| Step24.LowestDutyReached | step24.h:79 | the largest magnitude 127 is used: step 0 at amplitude 61 drives w to 1 |
| Step24.HighestDutyReached | step24.h:79 | step 6 at amplitude 61 drives u to 255 |
| Step24.WavesOf | step24.h:164-169 | after the range shift wave_u and wave_v lie in 64..191, and wave_w is 255 - u/2 - v/2, in 1..255 |
| Step24.ShiftsAreHighFreq | step24.h:175-177 | the firmware's two-by-two right shifts compute z = (x >> 2) - ((x >> 2) >> 2) |
| Step24.EstimatesOf | step24.h:171-189 | the four estimates built from u and v stay inside the byte range (28..179 for u_del and v_adv, 16..191 for u_adv and v_del), so only the w estimates can wrap |
| Step24.UvEstimatesNeverWrap | step24.h:175-189 | the four estimates derived from u and v equal their unwrapped values |
| Step24.WEstimatesCanWrap | step24.h:178-188 | the w estimates do wrap: full-scale samples give -35 before the store and 221 after it |
| Step24.DetectedPhase | step24.h:192-282 | the phase the cascade detects for two samples is always one of the 24 steps |
| Step24.DetectedByBlocks | step24.h:192-282 | the detected phase of two samples is what the six blocks leave when run one after another |
| Step24.DetectsPhases0To3 | step24.h:193-282 | steps 0 to 3 are each detected for some pair of samples, e.g. (108, 252) gives 0 |
| Step24.DetectsPhases4To7 | step24.h:193-282 | steps 4 to 7 are each detected for some pair of samples |
| Step24.DetectsPhases8To11 | step24.h:193-282 | steps 8 to 11 are each detected for some pair of samples |
| Step24.DetectsPhases12To15 | step24.h:193-282 | steps 12 to 15 are each detected for some pair of samples, e.g. (0, 0) gives 14 |
| Step24.DetectsPhases16To19 | step24.h:193-282 | steps 16 to 19 are each detected for some pair of samples |
| Step24.DetectsPhases20To23 | step24.h:193-282 | steps 20 to 23 are each detected for some pair of samples |
| Step24.DetectsEveryPhase | step24.h:192-282 | a phase is detected for some pair of samples exactly when it is one of the 24 steps: no step is unreachable |
| Step24.ByteDistanceIsAdvance | step24.h:285-295 | the firmware's 8-bit add-24 / subtract / drop-12-or-more computation equals the tracker's Advance for phases in 0..23 |
| Step24.Engine.constructor | step24.h:109-115 | initial globals: duties 128, phase 0, velocity 0, accumulator 0 |
| Step24.Engine.SetVelocity | step24.h:118 | the velocity becomes the old accumulator, the accumulator becomes 0, and nothing else changes |
| Step24.Engine.SetDuty | step24.h:120-158 | the three duty globals become Duty(amp, step); only they change |
| Step24.Engine.SetPhase | step24.h:160-298 | the phase becomes the detected phase unconditionally; the accumulator gains Advance(old phase, detected) modulo 65536; only these two change |
| Estimator.HighFreq | step24.h:175-177 | z is at most x / 4, at most 48 for a byte, and in 12..36 for x in 64..191 |
| Estimator.UBlock | step24.h:193-207 | the u block's else branch tests the negations of its then branch's two tests and writes the steps 12 away (12/0, 1/13) |
| Estimator.VBlock | step24.h:208-222 | the v block's else branch mirrors its then branch half a turn away (4/16, 17/5) |
| Estimator.WBlock | step24.h:223-237 | the w block's else branch mirrors its then branch half a turn away (20/8, 9/21) |
| Estimator.UwBlock | step24.h:238-252 | the u/w block's else branch mirrors its then branch half a turn away (11/23, 22/10) |
| Estimator.VuBlock | step24.h:253-267 | the v/u block's else branch mirrors its then branch half a turn away (3/15, 14/2) |
| Estimator.WvBlock | step24.h:268-282 | the w/v block's else branch mirrors its then branch half a turn away (19/7, 6/18) |
| Estimator.BlocksRotate | step24.h:193-282 | each block is the previous axis's block on the estimates rotated u to w, v to u, w to v, with its steps moved 16 on: the three axes are handled alike, a third of a turn apart |
| Estimator.Rules | step24.h:192-282 | the cascade has 24 assignments, each writing a step, and no two writing the same step |
| Estimator.LastWriteIsLastFiring | step24.h:192-282 | last write wins: the result is unassigned exactly when no assignment fires, and otherwise is the phase of a firing assignment that no later one overrides |
| Estimator.LastWriteBlock | step24.h:193-207 | a block runs only its taken branch, and its second assignment overrides its first |
| Estimator.LastWriteByBlocks | step24.h:192-282 | running the 24 assignments in program order is running the six blocks u, v, w, u/w, v/u, w/v in order |
| Estimator.Detect | step24.h:192-282 | the straight-line cascade leaves in detected_phase the last firing assignment of the rule list |
| Estimator.AlwaysFires | step24.h:192 | for every six estimates some assignment fires, so detected_phase is always assigned, and its value is in 0..23 |
| Estimator.Classify | step24.h:192-282 | the classifier is defined on all estimates, is in 0..23, and is the cascade's last write |
| Tracker.ForwardDistance | step24.h:286-292 | the forward distance is in 0..23 and moves `from` onto `to` modulo 24 |
| Tracker.Advance | step24.h:285-295 | a detection adds 0..11; the addition reaches the detected phase modulo 24 exactly when the forward distance is below 12; a distance of 12 or more adds 0 |
| Tracker.AdvanceWithoutModulus | motor/documents/html/script/phase.js:328-340 | adding 24 when the detection is numerically behind, subtracting, and dropping 12 or more gives Advance |
| Tracker.PhaseAfterSnoc | step24.h:297 | after one more detection the phase is that detection |
| Tracker.SumAfterBounds | step24.h:293-296 | n detections add between 0 and 11 * n |
| Tracker.SumAfterSnoc | step24.h:296 | one more detection adds its advance from the phase before it |
| Tracker.SteadyRotationCounts | step24.h:284-297 | a rotor advancing one step per detection accumulates exactly one per detection |
| Tracker.WorkedCases | step24.h:286-297 | phase 23 then detection 0 adds 1; phase 0 then detection 23 adds 0; the phase is updated in both cases |
| PhaseSim.Estimate | motor/documents/html/script/phase.js:207-232 | the statement-by-statement wave arithmetic computes the six unbounded estimates |
| PhaseSim.EstimatesOf | motor/documents/html/script/phase.js:207-232 | the u and v estimates stay in the same ranges as the firmware's; the w estimates lie in -35..243 and so can fall below zero |
| PhaseSim.DetectedPhase | motor/documents/html/script/phase.js:235-325 | the simulator's cascade always assigns a phase in 0..23 |
| PhaseSim.Detect | motor/documents/html/script/phase.js:207-325 | the estimates and the last firing assignment of the cascade, with NEUTRAL = 103 |
| PhaseSim.EstimatesMatchFirmware | motor/documents/html/script/phase.js:207-232 | the simulator's u and v estimates equal the firmware's; its w estimates equal the firmware's modulo 256 |
| PhaseSim.EstimatesCanBeNegative | motor/documents/html/script/phase.js:209-232 | for samples (255, 255) both w estimates are -35 in the simulator and 221 in the firmware |
| PhaseSim.AgreesWithFirmware | motor/documents/html/script/phase.js:204-325 | for u/2 + v/2 <= 219 the simulator and the firmware detect the same phase |
| PhaseSim.DivergesFromFirmware | motor/documents/html/script/phase.js:207-325 | for samples (186, 254) the simulator detects 1 and the firmware 6 |
| PhaseSim.CountAfter | motor/documents/html/script/phase.js:345-351 | the velocity counter never exceeds the interval |
| PhaseSim.CountCycles | motor/documents/html/script/phase.js:345-351 | after n calls the counter is n mod (interval + 1) |
| PhaseSim.PublishesEveryInterval | motor/documents/html/script/phase.js:345-351 | call n + 1 publishes the velocity exactly when n + 1 is a multiple of interval + 1 |
| PhaseSim.Simulator.constructor | motor/documents/html/script/phase.js:160-163 | the state `do_iteration` starts each run from: phase, sum and velocity 0, counter 0; these are also the values the declarations at phase.js:196-202 and phase.js:26 give |
| PhaseSim.Simulator.SetPhase | motor/documents/html/script/phase.js:204-352 | the six estimates are overwritten from this call's samples only; the phase becomes the detected one; the sum gains the advance; the velocity is published and the sum and counter reset exactly when the counter has reached the interval; the invariant (phase in 0..23, counter <= interval, sum <= 11 per counted call) is kept |
| PhaseSim.Simulator.Track | motor/documents/html/script/phase.js:328-351 | the tracker and the interval-counted publication, with the same invariant |
| Control.Tick | main.c:41-46 | after a pass the count is below 200; the step changes only when the count restarts, and then into 0..23; a step in 0..23 stays in 0..23 |
| Control.TickAdvances | main.c:41-46 | from counters in range, ii counts modulo 200 and step moves on by one modulo 24 exactly when ii wraps |
| Control.CountersAfter | main.c:19-46 | after any number of passes step is in 0..23 and ii in 0..199 |
| Control.CountersClosedForm | main.c:41-46 | after n passes ii = n mod 200 and step = (n / 200) mod 24 |
| Control.CountersFrom | main.c:41-46 | counters in range stay in range (step in 0..23, ii in 0..199) over any number of further passes |
| Control.CountersAfterPlus | main.c:19-46 | carrying on for m passes from the counters of n0 passes gives the counters of n0 + m passes: runs of the loop that continue one another add up to the passes counted since main set step and ii to 0 |
| Control.AccumulateOne | step24.h:296 | adding each advance into the 16-bit accumulator gives the 16-bit value of the total advance |
| Control.AccumulatorExact | step24.h:114-115 | at most 5957 passes between snapshots never wrap the accumulator |
| Control.SteadyRotationVelocity | step24.h:284-297 | after n steady one-step advances since a reset, the accumulator the next snapshot copies is exactly n |
| Control.SensePass | main.c:26-33 | set_phase on the pass's samples: the phase becomes their detection and the accumulator extends the run by it |
| Control.DrivePass | main.c:35-46 | the PWM outputs receive the duties of the commanded step at amplitude 61; the counters tick; only the duty globals change |
| Control.Pass | main.c:23-46 | one loop pass: set_phase before set_duty, the PWM outputs carry Duty(61, step), and the counters tick |
| Control.MainLoop | main.c:19-47 | a run of passes carries on from the counters c0 it reached before, which only main's start sets to 0: afterwards they are c0 moved on one tick per pass; the phase is the last detection; the accumulator holds the 16-bit total advance over all detections; the PWM outputs carry the duties of the step of the last pass, and are unchanged after no pass |
| Control.Isr | main.c:4-13 | with TMR1IF set, the velocity becomes the accumulator and the accumulator 0; otherwise nothing changes; phase and duties are never touched |
| Control.TimerPeriod | main.c:4-47 | an interrupt, the loop's passes of one timer period, then the next interrupt: the velocity it takes is the 16-bit sum of the advances over exactly those passes, counted from the phase at the start, and the accumulator is 0 again; the interrupt leaves the counters alone, so they carry on from c0 one tick per pass, and the PWM outputs hold the duties of the last pass's step, or are unchanged after no pass |

## Left out

- The race between the loop's unguarded `step24_phase_sum +=` and the interrupt's read-and-reset is not modelled. The interrupt is one atomic step that fires only between runs of passes: `Control.TimerPeriod` runs `Control.Isr`, the passes of one timer period, and `Control.Isr` again.
- ADC conversions and busy-waits, the PWM register writes, `setup()`, `TMR1_INIT`, `DEBUG_CYCLE_*` and the `GIE` toggling in `isr` are hardware I/O. They are left out. The two samples of a pass are inputs, and the PWM outputs are the returned duty triple.
- Control.MainLoop: the endless `while(1)` is modelled as a loop over a finite run of samples, during which the timer does not fire, and its contract describes the state after that run. A snapshot is `Control.Isr`, after which the loop goes on with a new run from the counters the last run reached; `Control.TimerPeriod` puts the two together, and `Control.CountersAfterPlus` adds the runs up.
- PhaseSim.Simulator.SetPhase: requires both samples in 0..255, which the script's only caller guarantees by clamping (phase.js:180-183). It is not defined for unclamped inputs.
- PhaseSim.Simulator.constructor: the six estimates start undefined in the script. The model starts them at 0; every call overwrites all six before reading them.
- The rest of phase.js (`do_iteration` with `Math.sin` and `Math.random`, the `disp_*` canvas drawing) is left out. It is floating point, randomness and display.
- `interval_onchange` (phase.js:39-41) is left out as a separate operation. It changes `gCalcVeloInterval`, which `set_phase` reads (phase.js:345). It is an event handler, so it cannot run inside the synchronous loop of `do_iteration`, and that loop restarts the counter before its first call (phase.js:160). A run is therefore a `PhaseSim.Simulator` built with one fixed interval.
- Step24.Engine.SetDuty: computes each output completely (load, clear, swing) before the next. The source first loads all three, then clears all three, then swings all three. The outputs are independent, so the final duties are the same.
- Step24.Engine.SetDuty: requires amp <= 61 and step <= 23. Out of range, the C code reads past the tables; its only caller passes 61 and a step in 0..23.
- Step24.EstimatesOf: computed as one function on the two samples rather than statement by statement. The two-shift sequences are proved equal to `Estimator.HighFreq` by `Step24.ShiftsAreHighFreq`.
- The LSM9DS1 driver, the IMU filters, the driver's `main.cpp`, `emf.js` and `drawer.js` are not part of this model. They are I2C I/O, floating-point filters and drawing.
