# Heart-rate zone treadmill controller

A Dafny model of `HeartRateTraining`, the controller that keeps a trainee's heart
rate inside a target zone by nudging treadmill speed or incline. Readings are
pushed into a 20-sample window. A self-rescheduling cycle averages them,
classifies the average against the zone, picks a small or large step and the
delay of the next cycle, adjusts speed (or, only when speed control is off,
incline by twice the step), clamps the new value to its limits and sends a
command only when the value changed.

Files:

- `policy.dfy` (module `HeartRatePolicy`) holds the pure part: the sample
  window (`Window`, `Push`), `Sum` and `Average`, `Clamp`, the direction and
  magnitude classification, and `Cycle`, one evaluation step as a function of
  configuration, average, speed and incline. The lemmas about them are here too.
- `training.dfy` (module `Training`) holds the class `HeartRateTraining`. Its
  fields mirror the source object. Each method has a field-level `modifies`
  frame, so a setter visibly changes nothing else. `AdjustTreadmill` is written
  step by step like the source, with the same locals and flags, and it is proved
  equal to `Cycle` on the state it starts from.
- `scenarios.dfy` (module `TrainingScenarios`) holds client methods on fresh
  controllers. They replay usage scenarios (no data, increase,
  decrease, clamp, priority, double start, stale handle, a long feed of
  readings) and fix what the treadmill sees.

How foreign parts are represented:

- Numbers: speeds, inclines, limits, steps, tolerance and heart rates are
  mathematical `real`s. Timeouts are `int`s.
- `treadmillCommands`: `setSpeed(v)` and `setInclination(v)` become appends of
  `SetSpeed(v)` and `SetInclination(v)` to the `commands` log field.
- `setTimeout`: a call becomes the delay it asks for. `AdjustTreadmill` and
  `StartHFTraining` return it as `Option<int>`, and `None` means no timer was
  armed. `StopHFTraining` returns whether it called `clearTimeout`.
- `trainingInterval`: `Option<Timer>`. `Some` is a truthy handle, recorded with
  the delay it was armed with. A handle stays held after its timer has fired.
  So after a cycle returns early (no axis enabled) the stale handle makes
  `StartHFTraining` a no-op until `StopHFTraining` runs, and
  `StaleHandleScenario` shows exactly that.
- `speedLimits` and `inclineLimits`: `Limits` values. The setters replace the
  whole value because the source assigns both components.

Two consequences of the code worth knowing:

- Magnitude is tested only against the boundary that is violated. The lower
  bound is tested first (source lines 54-66). `LargeOnlyPastViolatedBoundary`
  states this for every zone and tolerance. This project also claims that the
  delay and the step are large exactly when `avg < min - tolerance` or
  `avg > max + tolerance`. That claim holds when `tolerance >= 0` and
  `min <= max` (`DelayAndStepClassification`). For example, with zone min 150,
  max 100, tolerance 5 and average 148, the cycle makes a small increase.
- The code clamps only when a correction is needed. The mirrored speed and
  incline are clamped only when the cycle changes them. `setCurrentSpeed` can
  leave them outside the limits, and a later clamp can then move them against
  the correction.

## Model

| member | source | states |
|---|---|---|
| `Training.HeartRateTraining.constructor` | src/js/HeartRateTraining.js:3-20 | no handle held, both axes off, empty buffer and log, zone 0..0, speed limits 1..20, incline limits 0..15, speed and incline 0, tolerance 5, steps 0.2/0.5, delays 5000/10000 |
| `Training.HeartRateTraining.HandleHeartRateChanged` | src/js/HeartRateTraining.js:22-25 | the reading is appended and the oldest is evicted past 20; the buffer stays at most 20 long and equal to the last 20 readings received, in order |
| `HeartRatePolicy.Window` | src/js/HeartRateTraining.js:24 | the window of the readings received has length min(received, 20) |
| `HeartRatePolicy.WindowIsSuffix` | src/js/HeartRateTraining.js:22-25 | each window element is the matching element of the tail of the received readings |
| `HeartRatePolicy.Push` | src/js/HeartRateTraining.js:22-25 | definition, no contract: append the reading, then drop the front element when past the capacity |
| `HeartRatePolicy.PushEvictsOnlyOldest` | src/js/HeartRateTraining.js:22-25 | a push keeps a buffer of at most 20 within 20, appends when not full, drops exactly the front element when full, and leaves the new reading last |
| `HeartRatePolicy.PushKeepsWindow` | src/js/HeartRateTraining.js:22-25 | pushing onto the window of the readings so far gives the window of the readings including the new one |
| `TrainingScenarios.FeedReadings` | src/js/HeartRateTraining.js:22-25 | after any sequence of readings the buffer is at most 20 long and equals their last 20, in arrival order |
| `HeartRatePolicy.Sum` | src/js/HeartRateTraining.js:28 | definition, no contract: the total of the readings, accumulated left to right from 0 like the `reduce` |
| `HeartRatePolicy.Average` | src/js/HeartRateTraining.js:27-30 | 0 for an empty buffer; otherwise the result times the count is the sum of the readings |
| `HeartRatePolicy.SumAtLeast` | src/js/HeartRateTraining.js:28 | readings all at least lo have a left-to-right total of at least lo times their count |
| `HeartRatePolicy.SumAtMost` | src/js/HeartRateTraining.js:28 | readings all at most hi have a total of at most hi times their count |
| `HeartRatePolicy.AverageWithinReadings` | src/js/HeartRateTraining.js:27-30 | the average of a non-empty buffer lies within any bounds its readings respect |
| `HeartRatePolicy.AverageZeroIffNoDataOrZeroSum` | src/js/HeartRateTraining.js:29 | the average is 0 exactly when the buffer is empty or the readings sum to 0, so a genuine zero mean reads as "no data" |
| `HeartRatePolicy.PositiveReadingsAreData` | src/js/HeartRateTraining.js:29-38 | readings bounded below by a positive value never produce the "no data" average |
| `HeartRatePolicy.AverageOfOne` | src/js/HeartRateTraining.js:27-30 | a single reading is its own average |
| `HeartRatePolicy.AverageOfThree` | src/js/HeartRateTraining.js:27-30 | the average of 60, 70 and 80 is 70 |
| `HeartRatePolicy.Clamp` | src/js/HeartRateTraining.js:76 | the result is at least min, at most max when min <= max, the input itself when within limits, min when the limits are inverted, and always one of input, min and max |
| `HeartRatePolicy.ClampMonotone` | src/js/HeartRateTraining.js:76-79 | clamping preserves order |
| `HeartRatePolicy.Classify` | src/js/HeartRateTraining.js:54-66 | definition, no contract: increase below the minimum, otherwise decrease above the maximum, otherwise hold |
| `HeartRatePolicy.IsLarge` | src/js/HeartRateTraining.js:54-66 | definition, no contract: the correction is large when the average is more than tolerance past the boundary it violates |
| `HeartRatePolicy.StepSize` | src/js/HeartRateTraining.js:70 | definition, no contract: the large adjustment for a large correction, else the small one |
| `HeartRatePolicy.Multiplier` | src/js/HeartRateTraining.js:71 | definition, no contract: +1 for an increase, -1 for a decrease |
| `HeartRatePolicy.NextDelay` | src/js/HeartRateTraining.js:47-64 | definition, no contract: the large timeout for a large correction, else the small one |
| `HeartRatePolicy.Cycle` | src/js/HeartRateTraining.js:32-95 | definition, no contract: one evaluation cycle as a function of configuration, average, speed and incline, giving the new speed and incline, the commands sent and the next delay; the lemmas below state its properties |
| `Training.HeartRateTraining.AdjustTreadmill` | src/js/HeartRateTraining.js:32-95 | the step-by-step cycle leaves the speed, incline, command log and requested delay that `Cycle` prescribes for the entry state; a reschedule replaces the handle, and an early return keeps the old (stale) handle |
| `HeartRatePolicy.IdleWithoutAxes` | src/js/HeartRateTraining.js:33-35 | with neither axis enabled nothing is sent, nothing changes and nothing is rescheduled |
| `HeartRatePolicy.NoDataRetry` | src/js/HeartRateTraining.js:37-42 | with an axis enabled every cycle reschedules; with average 0 nothing is sent or changed and the retry comes after the small delay |
| `HeartRatePolicy.HoldInsideZone` | src/js/HeartRateTraining.js:47-69 | an average inside [min, max] sends nothing, changes nothing and waits the small delay; any command comes from an average outside the zone |
| `HeartRatePolicy.LargeOnlyPastViolatedBoundary` | src/js/HeartRateTraining.js:54-66 | for any zone and tolerance, a correction is large exactly when the average is below the minimum by more than tolerance, or is not below the minimum and is above the maximum by more than tolerance |
| `HeartRatePolicy.DelayAndStepClassification` | src/js/HeartRateTraining.js:54-70 | with tolerance >= 0 and min <= max, the large delay and the large step are chosen exactly when the average is more than tolerance outside the zone, whether or not a command goes out |
| `HeartRatePolicy.StepApplied` | src/js/HeartRateTraining.js:70-79 | unclamped, speed moves by exactly +step below the zone and -step above it; with only incline control, incline moves by exactly twice the step |
| `HeartRatePolicy.SpeedStepClamped` | src/js/HeartRateTraining.js:69-86 | outside the zone with speed control on, the new speed is the old one plus the signed step, clamped to the speed limits, and a command carrying it goes out exactly when it differs |
| `HeartRatePolicy.InclineStepClamped` | src/js/HeartRateTraining.js:69-91 | outside the zone with only incline control on, the new incline is the old one plus twice the signed step, clamped to the incline limits, and a command carrying it goes out exactly when it differs |
| `HeartRatePolicy.MovesTowardZone` | src/js/HeartRateTraining.js:70-79 | from within the limits and with non-negative steps, speed and incline never move against the needed correction |
| `HeartRatePolicy.CommandsWithinLimits` | src/js/HeartRateTraining.js:74-91 | every value sent, and every mirrored value a cycle changes, is at least its minimum and at most its maximum when the limits are ordered |
| `HeartRatePolicy.SpeedPriority` | src/js/HeartRateTraining.js:73-91 | at most one command per cycle; with speed control on, the incline is untouched and only speed commands go out |
| `HeartRatePolicy.CommandIffChanged` | src/js/HeartRateTraining.js:82-91 | a command goes out exactly when the mirrored value changes, it carries the new value, and only an enabled axis changes |
| `TrainingScenarios.IncreaseExample` | src/js/HeartRateTraining.js:54-76 | zone 120..150, average 100: speed 5.0 becomes 5.5, one SetSpeed(5.5), large delay |
| `TrainingScenarios.DecreaseExample` | src/js/HeartRateTraining.js:60-79 | zone 120..150, average 152, incline only: incline 3.0 becomes 2.6, one SetInclination(2.6), small delay |
| `TrainingScenarios.ClampExample` | src/js/HeartRateTraining.js:74-76 | speed 19.9 with a large increase is sent as 20, not 20.4 |
| `TrainingScenarios.PriorityExample` | src/js/HeartRateTraining.js:73-91 | with both axes on, only the speed moves |
| `TrainingScenarios.IncreaseScenario` | src/js/HeartRateTraining.js:32-95 | a configured controller's cycle sends [SetSpeed(5.5)], mirrors 5.5 and asks for 10000 |
| `TrainingScenarios.DecreaseScenario` | src/js/HeartRateTraining.js:32-95 | with incline only, the cycle sends [SetInclination(2.6)], mirrors 2.6 and asks for 5000 |
| `TrainingScenarios.ClampScenario` | src/js/HeartRateTraining.js:74-86 | the controller sends [SetSpeed(20.0)] from speed 19.9 |
| `TrainingScenarios.PriorityScenario` | src/js/HeartRateTraining.js:74-91 | with both axes enabled the controller sends only [SetSpeed(5.5)] and keeps incline 3.0 |
| `TrainingScenarios.NoDataScenario` | src/js/HeartRateTraining.js:37-41 | started without readings: one immediate timer, then a cycle that sends nothing, keeps speed 0 and asks for 5000 |
| `Training.HeartRateTraining.StartHFTraining` | src/js/HeartRateTraining.js:98-102 | arms a zero-delay timer only when no handle is held, else changes nothing |
| `Training.HeartRateTraining.StopHFTraining` | src/js/HeartRateTraining.js:104-109 | cancels exactly when a handle is held and always leaves none, so a second stop is a no-op |
| `TrainingScenarios.StartTwiceScenario` | src/js/HeartRateTraining.js:98-102 | a second start arms no second timer |
| `TrainingScenarios.StaleHandleScenario` | src/js/HeartRateTraining.js:32-109 | after an early-return cycle, start arms nothing until stop clears the handle; stopping twice cancels once |
| `Training.HeartRateTraining.SetTargetHeartRateZone` | src/js/HeartRateTraining.js:111-114 | sets the zone bounds, unvalidated, and no other field |
| `Training.HeartRateTraining.SetSpeedLimits` | src/js/HeartRateTraining.js:116-119 | sets both speed limits, unvalidated, and no other field |
| `Training.HeartRateTraining.SetInclineLimits` | src/js/HeartRateTraining.js:121-124 | sets both incline limits, unvalidated, and no other field |
| `Training.HeartRateTraining.SetAdjustmentMethods` | src/js/HeartRateTraining.js:126-129 | sets both axis switches and no other field |
| `Training.HeartRateTraining.SetCurrentSpeed` | src/js/HeartRateTraining.js:131-133 | sets the mirrored speed, unclamped, and no other field |
| `Training.HeartRateTraining.SetCurrentIncline` | src/js/HeartRateTraining.js:135-137 | sets the mirrored incline, unclamped, and no other field |

## Left out

- Wall-clock timing, timer ids and callback binding are not modelled. Only the delay each `setTimeout` asks for and whether a handle is held are modelled, and a handle is always truthy.
- The `await` on the treadmill calls is not modelled. A call is an append to the log that always succeeds, so a rejected call (which ends the reschedule chain in the source) is not modelled. A setter or `stopHFTraining` running while a cycle is suspended on a call, and the trailing reschedule that follows, are not modelled either.
- IEEE-754 doubles are not modelled. Sums and steps are exact, so `3.0 - 0.4` is exactly 2.6. NaN from non-numeric readings and `NaN || 0` on a non-empty buffer are not modelled, because readings are reals.
- The `targetCenter` computation (line 44) is left out: it is computed but never used.
- The `treadmillCommands` constructor argument is left out. Its calls are the `commands` log.
- The in-place mutation of the `speedLimits` and `inclineLimits` objects is modelled as whole-value assignment. External code holding a reference to those objects (aliasing) is not modelled.
- HeartRatePolicy.DelayAndStepClassification: it requires `tolerance >= 0` and `targetMin <= targetMax`, because the source tests only the violated boundary and the disjunction fails otherwise. `LargeOnlyPastViolatedBoundary` states the general case without these requires.
- HeartRatePolicy.MovesTowardZone: it requires speed and incline to start within their limits and the steps to be non-negative, because a clamp from outside the limits can move against the correction.
