# M48 Z-probe repeatability test — a Dafny model

This project models `gcode_M48` of the MK4duo firmware: the G-code command that measures how repeatable the
Z probe is. The command runs in four phases, and the model follows each one.

1. **Validation.** The homing check comes first, then the V (verbosity), P (sample count), X/Y (probe point)
   and L (legs) parameters, in source order. Any failure returns before the machine is touched.
2. **Setup.** Bed leveling is switched off and setup runs. Then one "priming" probe is taken at the target
   with the requested verbosity.
3. **Sampling.** This happens only if the priming probe returned a number. There are up to n_samples passes.
   Each pass first walks n_legs - 1 moves, if legs were asked for:
   - the walk starts from a random angle and radius around the target;
   - each step is a star step of 144 degrees or a random 25–44 degree step, in one random direction;
   - the angle is brought back into range by the two `while` loops;
   - the waypoint is clamped to the bed with `LIMIT`.

   Then the pass probes the target quietly. The first NaN reading ends the loop. After every good reading,
   the mean is recomputed over `sample_set[0..n]`, along with min, max and the sum of squared deviations.
4. **Teardown.** This always runs: the probe is stowed and the "Finished!" summary is printed only if probing
   stayed good. Clean-up, leveling restore and the position report follow.

How the model is organised:
- The printer is the class `M48.Machine`. Its environment fields are constants:
  - homing state, probe offset and bed limits;
  - the reachability predicate;
  - the sequence of probe readings, with `None` for NaN;
  - the raw random stream;
  - cos/sin.
- Its state is mutable fields: nozzle position, leveling flags, counters of probe calls and random draws, and
  a `trace` of every collaborator call.
- `sample_set` is an `array<real>` that the sampling loop fills in place.
- The validation prefix is a pure function. The angle loops and the summation loops are methods with loop
  invariants. The summation loops are proved equal to the specification functions `Mean` and `SqDev`. The
  angle loops are proved to land in [0, 360] by adding or subtracting whole turns.
- `Conforms` ties a whole run to the readings. It covers:
  - which samples are accepted (`Accepted`);
  - how many passes and probe calls were made;
  - that every move stays on the bed;
  - that the summary is printed exactly when all n_samples readings were good;
  - that the reported statistics are those of the accepted samples.

Where the command's documentation and its code differ, the model follows the code:
- The normalised angle lies in [0, 360], not [0, 360). The `while (angle > 360.0)` loop leaves an angle of
  exactly 360 alone, for example a start of 216 plus a 144 star step.
- A non-star step is `random(25, 45)`, which is 25 to 44 degrees, not [25, 45].
- The direction is clockwise for 4 of the 10 values of `random(0, 10)` (6 to 9, which make the angle go down) and counter-clockwise for the other 6, not half the time.
- After a mid-loop probe failure no summary is printed (`probing_good` is false), even when samples were taken.

## Model

All source paths are `MK4duo/src/commands/gcode/calibrate/m48.h`.

| member | source | states |
|---|---|---|
| Validation.AsInt8 | MK4duo/src/commands/gcode/calibrate/m48.h:64 | the byte stored in an `int8_t` lies in [-128, 128) and agrees with the byte modulo 256 |
| Validation.Validate | MK4duo/src/commands/gcode/calibrate/m48.h:53-92 | each of the five errors is returned exactly when its check fails and all earlier checks pass, in source order; on success the configuration has V or 1, P or 10, the raise mode from E, X/Y or the current position plus the probe offset (which is reachable), legs 2 for L1, 7 for S without L, otherwise L or 0, and lies in its plausible ranges |
| Pattern.Limit | MK4duo/src/commands/gcode/calibrate/m48.h:179-180 | the result lies in [lo, hi], equals v when v is already inside, and is the point of [lo, hi] nearest to v |
| Pattern.Trunc | MK4duo/src/commands/gcode/calibrate/m48.h:132 | the `(int)` cast drops the fraction towards zero, for both signs |
| Pattern.RandomIn | MK4duo/src/commands/gcode/calibrate/m48.h:125-155 | `random(lo, hi)` lies in [lo, hi) and is lo when the range is empty |
| Pattern.NormalizeAngle | MK4duo/src/commands/gcode/calibrate/m48.h:159-162 | the result lies in [0, 360] and differs from the input by whole turns; an input already in [0, 360] is unchanged; 360 only comes from inputs of at least 360, 0 only from inputs of at most 0 |
| Pattern.Waypoint | MK4duo/src/commands/gcode/calibrate/m48.h:164-180 | the waypoint lies on the bed, and is the unclamped point on the circle when that is already on the bed |
| Statistics.SqDev | MK4duo/src/commands/gcode/calibrate/m48.h:215-217 | the sum of squared deviations is never negative |
| Statistics.LowestBound | MK4duo/src/commands/gcode/calibrate/m48.h:109-208 | `NOMORE` from 99999.9 over the samples yields a value at most every sample and 99999.9, and equal to one of them |
| Statistics.HighestBound | MK4duo/src/commands/gcode/calibrate/m48.h:109-209 | `NOLESS` from -99999.9 over the samples yields a value at least every sample and -99999.9, and equal to one of them |
| Statistics.ExtremesMonotone | MK4duo/src/commands/gcode/calibrate/m48.h:208-209 | a new sample never raises min nor lowers max, and lies between them |
| Statistics.SumBounds | MK4duo/src/commands/gcode/calibrate/m48.h:204-205 | samples all in [lo, hi] sum to between n·lo and n·hi |
| Statistics.MeanBounds | MK4duo/src/commands/gcode/calibrate/m48.h:204-206 | the mean of samples all in [lo, hi] lies in [lo, hi] |
| Statistics.MeanWithinExtremes | MK4duo/src/commands/gcode/calibrate/m48.h:204-209 | min <= mean <= max for any non-empty set of samples |
| Statistics.PrefixMean | MK4duo/src/commands/gcode/calibrate/m48.h:204-206 | the summation loop and the division give the mean of `sample_set[0..k-1]` |
| Statistics.PrefixSqDev | MK4duo/src/commands/gcode/calibrate/m48.h:215-217 | the second summation loop gives the sum of squared deviations of `sample_set[0..k-1]` from the mean |
| M48.Accepted | MK4duo/src/commands/gcode/calibrate/m48.h:195-199 | the accepted samples are at most n; the i-th is the reading of the i-th probe call; fewer than n only when the next call failed |
| M48.AcceptedUnique | MK4duo/src/commands/gcode/calibrate/m48.h:195-199 | those three properties determine the accepted samples: any sequence with them equals `Accepted` |
| M48.BlockCounts | MK4duo/src/commands/gcode/calibrate/m48.h:144-195 | one pass makes exactly one probe call and n_legs - 1 moves, none when n_legs is 0 |
| M48.FlattenedCounts | MK4duo/src/commands/gcode/calibrate/m48.h:119-195 | k passes make k probe calls and k·(n_legs - 1) moves |
| M48.FlattenedEvents | MK4duo/src/commands/gcode/calibrate/m48.h:179-195 | every event of the passes is a move on the bed or a quiet probe (verbosity 0) at the target with the run's raise mode |
| M48.RunCounts | MK4duo/src/commands/gcode/calibrate/m48.h:112-236 | a run makes 1 + (passes) probe calls and (passes)·(n_legs - 1) moves, at most n_samples passes, and every move is on the bed |
| M48.RunReadings | MK4duo/src/commands/gcode/calibrate/m48.h:112-199 | the samples are the readings after the priming probe, in order; an unfinished run ended on its first failed probe call; a finished run has n_samples samples and every one of its probe calls was good |
| M48.RunStatistics | MK4duo/src/commands/gcode/calibrate/m48.h:204-219 | a run with samples reports min <= mean <= max, every sample within [min, max], and a non-negative sum of squares |
| M48.Machine.CheckPt | MK4duo/src/commands/gcode/calibrate/m48.h:112 | a probe call is recorded, leaves the nozzle where it puts the probe over the probe point, and returns the next reading |
| M48.Machine.Random | MK4duo/src/commands/gcode/calibrate/m48.h:125-155 | `random(lo, hi)` with a non-empty range takes the next raw value and maps it into [lo, hi); with an empty range it returns lo and takes none |
| M48.Machine.MoveTo | MK4duo/src/commands/gcode/calibrate/m48.h:190 | the move is recorded and the nozzle is at its end |
| M48.Machine.Signal | MK4duo/src/commands/gcode/calibrate/m48.h:239-270 | a call made for its effect alone is recorded |
| M48.Machine.DisableLeveling | MK4duo/src/commands/gcode/calibrate/m48.h:104 | leveling is off and the previous state is kept for the restore |
| M48.Machine.RestoreLeveling | MK4duo/src/commands/gcode/calibrate/m48.h:267 | leveling is back in the kept state |
| M48.Machine.StartLegs | MK4duo/src/commands/gcode/calibrate/m48.h:125-134 | the direction, the start angle in [0, 360) and the radius in [5, bound) are the values of the next draws, in that order; the radius takes a raw value only when its range is non-empty, so 2 or 3 raw values are taken |
| M48.Machine.Leg | MK4duo/src/commands/gcode/calibrate/m48.h:145-190 | one leg steps the angle by ±144 (star) or a drawn ±25..44, brings it into [0, 360] by whole turns, and moves to the clamped waypoint at the new angle, where the nozzle then is; a random step is the drawn value itself |
| M48.Machine.WalkLegs | MK4duo/src/commands/gcode/calibrate/m48.h:124-191 | n_legs - 1 moves, all on the bed, each to the waypoint at its angle; each angle is the previous one (the start angle first) plus a pattern step, modulo whole turns; direction, start angle and radius are the first draws; the start draws (2 or 3) plus one per random-step leg; the nozzle ends at the last waypoint |
| M48.Machine.TakeSample | MK4duo/src/commands/gcode/calibrate/m48.h:124-195 | one pass records a well-formed block (leg moves, then one quiet probe at the target) and returns the reading; when there are legs, the block's moves are the angle walk of `WalkLegs` (direction ±1, start angle in [0, 360), radius bound); the pass takes the start draws (2 or 3) plus one per random-step leg (none when n_legs is 0) and leaves the nozzle over the probe point |
| M48.Machine.SampleLoop | MK4duo/src/commands/gcode/calibrate/m48.h:119-236 | `sample_set[0..n-1]` holds exactly the accepted samples; probing stays good iff all n_samples were good; one more pass than samples after a failure; the trace is the passes' blocks, once a pass has probed the nozzle is over the probe point, and each pass made its draws; the statistics are those of the accepted samples |
| M48.Machine.Record | MK4duo/src/commands/gcode/calibrate/m48.h:195-217 | the sample is stored at index n and the statistics become those of the samples so far plus it |
| M48.Machine.Conclude | MK4duo/src/commands/gcode/calibrate/m48.h:239-270 | the teardown records stow, the summary only if probing stayed good, clean-up, restore and report, and brings leveling back to its saved state |
| M48.Machine.Measure | MK4duo/src/commands/gcode/calibrate/m48.h:102-270 | a validated run conforms to its configuration and readings; its trace is leveling off, setup, the priming probe, the passes and the teardown; each pass makes the draws `TakeSample` states, and the run leaves the nozzle over the probe point, where the last `check_pt` put it; leveling ends as it began, and the state to restore is the one it began with |
| M48.Machine.Command | MK4duo/src/commands/gcode/calibrate/m48.h:51-271 | an invalid command returns its error with no probe, move, draw or trace entry; a valid one runs as `Measure` states, including its draws, final nozzle position and saved leveling state; an invalid one also leaves the saved leveling state as it was; leveling ends as it began |

## Left out
- Delta kinematics: the radius bounds from `probe_radius` and the loop that scales an unreachable waypoint by 0.8. The model is the rectangular-machine branch with `LIMIT`.
- Serial and LCD output: the header, the per-sample lines, the verbose-level messages and the final figures. Only the "Finished!" summary appears, as a trace event, because whether it is printed is observable behaviour.
- Square root: `sigma = SQRT(sum / (n + 1))` is not computed. The model keeps the sum of squared deviations that sigma is taken from.
- Floating point: every `float` and `double` is an exact real, so rounding is not modelled. 99999.9 and -99999.9 are exact.
- `randomSeed(millis())` and the generator: the raw random outputs are a constant function of the draw number. `prng(k)` is the raw value that the k-th `random()` call with a non-empty range maps. Like Arduino's `random(lo, hi)`, a call with `hi <= lo` returns `lo` and takes no raw value. The mapping `lo + raw % (hi - lo)` is written out.
- cos and sin of `RADIANS(angle)`: these are input functions of the angle.
- Parsing: `parser.seen`, `value_byte`, `boolval` and `linearval` (including unit conversion) are taken as already parsed into `Params`.
- `axis_unhomed_error` and `position_is_reachable_by_probe`: these are a flag and a predicate given to the machine; their own messages are not modelled.
- What `probe.check_pt` does inside: deploying, raising, stowing and the Z moves. A probe call is recorded as one event and returns its reading. The code of `probe` is not part of this model. It is taken that `check_pt` leaves the nozzle XY at the probe point minus the probe offset, where its probe sits over that point, so `Measure` and `Command` end there under that assumption.
- A NaN reading: the source writes it into `sample_set[n]` before testing it. The model does not store it, because nothing reads that slot afterwards.
- Readings: a probe call beyond the supplied readings is treated as a failed one.
- Leveling: the build is taken to have leveling (`HAS_LEVELING`). The code of `bedlevel` is not part of this model, so it is an assumption that `set_bed_leveling_enabled(false)` keeps the earlier state and that `restore_bed_leveling_state()` returns to it. "Leveling ends as it began" in `Measure` and `Command` follows from that assumption alone.
- `Statistics.SqDev`: its own contract states only non-negativity; what it means is pinned down by `PrefixSqDev`, `Record` and `SampleLoop`.
