# Workout calculator, modelled in Dafny

This project models a small workout calculator, `homework.py`. The calculator
takes raw sensor readings for three activities and computes three values:
the distance covered (km), the mean speed (km/h) and the calories burned.
The activities are running (`RUN`), sports walking (`WLK`) and swimming
(`SWM`). The source is built from four pieces:

- a base `Training` class with the unit constants, the base distance
  (`action * LEN_STEP / M_IN_KM`) and the base mean speed
  (`distance / duration`);
- three variants. `Running` and `SportsWalking` each add a calorie formula.
  `Swimming` also overrides the step length (1.38 m instead of 0.65 m) and
  the mean speed (pool length times laps, in km, over the duration);
- `read_package`, which looks an activity code up in a fixed table. It then
  calls the class it finds with the data list spread positionally;
- `show_training_info`, which gathers a session's class name, duration,
  distance, speed and calories into an `InfoMessage` record.

The model is pure, like the source: each session is built once and never
changed afterwards.

- `training.dfy` (module `Training`) holds the constants and the `Workout`
  datatype, which has one constructor per class. It also holds `Distance`,
  `MeanSpeed` and `Calories` and the lemmas about them.
- `dispatch.dfy` (module `Dispatch`) holds the code table `WORKOUT_DICT` and
  `ReadPackage`. `ReadPackage` returns a `Result` with two errors:
  `UnknownType` for a code that is not in the table (Python's `KeyError`) and
  `ArityMismatch` for a data list of the wrong length (Python's `TypeError`).
  The table lookup comes first, so an unknown code with a wrong-length list
  reports `UnknownType`, as in the source.
- `report.dfy` (module `Report`) holds `InfoMessage` and `ShowTrainingInfo`.
- `samples.dfy` (module `Samples`) holds the three sample packages of the
  source's main block, read and reported end to end with exact arithmetic.
- `wrappers.dfy` (module `Wrappers`) holds the `Result` datatype.

Arithmetic follows these conventions:

- Python floats are idealised as exact `real`s.
- Python's `x ** 2` is `Square(x)`.
- Python's float floor division `x // y` is `FloorDiv(x, y)`, which is
  `(x / y).Floor`. Like Python, it rounds toward minus infinity.
- Python raises a division by zero only when the divisor is exactly zero. So
  the formulas require `duration != 0.0`, and walking calories also require
  `height != 0.0` (predicate `CaloriesDefined`). They do not require a
  positive duration. The lemmas that need a sign (monotonicity, lower bounds)
  state their own sign conditions.
- All data fields are modelled as `real`s. `read_package` passes an untyped
  list, and Python does not enforce the `int` annotations on `action`,
  `length_pool` and `count_pool`.

The running sample `('RUN', [15000, 1, 75])` gives 699.75 calories under
the code's formula, (18 * 9.75 - 20) * 75 / 1000 * 1 * 60. That value is
proved in `Samples.RunningSample`.

## Model

| member | source | states |
|---|---|---|
| `Training.StepLength` | homework.py:32 | one action covers a positive length: 0.65 m for running and walking, and 1.38 m for swimming, whose class overrides LEN_STEP (homework.py:129) |
| `Training.Distance` | homework.py:51-53 | the distance is non-negative for a non-negative number of actions, and zero exactly when there are no actions |
| `Training.DistancePerAction` | homework.py:51-53 | the distance is `action * 0.00065` km for running and walking and `action * 0.00138` km for swimming (its class overrides LEN_STEP to 1.38 m) |
| `Training.DistanceMonotone` | homework.py:51-53 | in every variant, the distance does not decrease when the number of actions grows |
| `Training.MeanSpeed` | homework.py:56-58 | requires a non-zero duration; for running and walking, speed times duration equals the distance; for swimming, speed times duration times 1000 equals pool length times laps |
| `Training.MeanSpeedMonotone` | homework.py:56-58 | over a positive duration, the base mean speed does not decrease when the number of steps grows |
| `Training.Calories` | homework.py:93-159 | the three `get_spent_calories` overrides (homework.py:93-97, 119-124, 156-159), defined when the duration is non-zero and, for walking, the height is non-zero; a session with zero weight burns zero calories in every variant |
| `Training.ClassName` | homework.py:69 | the class name is "Running", "SportsWalking" or "Swimming" exactly for the matching variant |
| `Training.SwimmingIgnoresAction` | homework.py:150-159 | a swim's mean speed and calories do not depend on the number of paddles; its distance changes exactly when the number of paddles changes |
| `Training.SwimmingCaloriesLowerBound` | homework.py:156-159 | with non-negative weight and speed, swimming calories are at least 1.1 * 2 * weight |
| `Training.RunningCaloriesClosedForm` | homework.py:93-97 | the mean speed's duration cancels the duration factor, so running calories equal (18 * distance - 20 * duration) * weight * 60 / 1000 |
| `Training.RunningCaloriesMonotone` | homework.py:93-97 | for non-negative weight, running calories do not decrease when the number of steps grows |
| `Training.FloorDiv` | homework.py:122 | Python's `x // y` on floats gives the integer q with q <= x / y < q + 1 |
| `Training.FloorDivBelowDivisor` | homework.py:122 | a non-negative dividend smaller than the divisor floor-divides to 0 |
| `Training.WalkingCaloriesSplit` | homework.py:119-124 | walking calories are the weight-only term 0.035 * weight * duration * 60 plus floor(speed² / height) * 0.029 * weight * duration * 60 |
| `Training.WalkingCaloriesBaseline` | homework.py:119-124 | with positive height and duration and non-negative weight, walking calories are at least the weight-only term; they equal it when the squared speed is below the height, and for a positive weight they equal it only then |
| `Training.WalkingCaloriesMonotone` | homework.py:119-124 | with positive duration and height, non-negative weight and a non-negative step count, walking calories do not decrease as the step count grows, despite the floor term |
| `Training.CaloriesMonotone` | homework.py:93-159 | calories do not decrease with the number of actions, all else fixed: for running with a non-negative weight; for walking with a non-negative weight, a positive duration and height and a non-negative step count; and for swimming always, since its calories stay the same |
| `Dispatch.Arity` | homework.py:133-147 | each constructor takes the three shared fields (homework.py:38-48) plus its own: running takes 3, walking 4 (homework.py:105-116) and swimming 5, and these counts tell the classes apart |
| `Dispatch.Fields` | homework.py:38-48 | a session's positional fields are as many as its class's constructor takes, and they begin with action, duration and weight |
| `Dispatch.Construct` | homework.py:170 | spreading a data list of the right length into a class's constructor gives a session of that class whose positional fields are exactly that list |
| `Dispatch.CodeOf` | homework.py:165 | each class has a code that the table maps to it |
| `Dispatch.TableIsBijective` | homework.py:165 | the table holds exactly the codes SWM, RUN and WLK; a known code maps to a class exactly when it is that class's code |
| `Dispatch.ReadPackage` | homework.py:162-171 | a code not in the table fails with `UnknownType`, checked before the data; a known code with the wrong number of fields fails with `ArityMismatch` and the expected and given counts; otherwise the read succeeds, with the class the table names and the data as the positional fields, both ways |
| `Dispatch.ConstructOfFields` | homework.py:170 | rebuilding a session from its class and its positional fields gives back the same session |
| `Dispatch.ReadPackageRoundTrip` | homework.py:162-171 | reading a session's own code and field list gives back that session |
| `Dispatch.ReadPackageInjective` | homework.py:162-171 | two packages that read to the same session had the same code and the same data |
| `Dispatch.ReadPackagePositional` | homework.py:165-170 | SWM, RUN and WLK build Swimming, Running and SportsWalking from 5, 3 and 4 fields, assigned in order |
| `Report.ShowTrainingInfo` | homework.py:66-74 | the report carries the class name, the unchanged duration, and exactly the session's distance, mean speed and calories |
| `Report.ReportIdentifiesVariant` | homework.py:69 | two reports have the same training type exactly when the two sessions are of the same variant |
| `Report.SwimmingReportIgnoresAction` | homework.py:66-74 | changing a swim's number of paddles changes only the distance in its report |
| `Samples.SwimmingSample` | homework.py:184 | the SWM sample reads to a swim reporting 1 h, 0.9936 km, 1.0 km/h and 336 calories |
| `Samples.RunningSample` | homework.py:185 | the RUN sample reads to a run reporting 1 h, 9.75 km, 9.75 km/h and 699.75 calories |
| `Samples.WalkingSample` | homework.py:186 | the WLK sample reads to a walk whose floor term is 0, reporting 1 h, 5.85 km, 5.85 km/h and 157.5 calories |
| `Samples.UnknownCodeSample` | homework.py:168 | the code XYZ fails with a lookup error, whatever the data |
| `Samples.WrongAritySample` | homework.py:170 | RUN with 2 fields and SWM with 3 fields fail after a successful lookup, with `ArityMismatch` carrying the expected and given field counts |

## Left out

- Message rendering: `InfoMessage.get_message`, its template field and the three-decimal `.3f` formatting (homework.py:18-26) are presentation through Python's string formatting. `InfoMessage` is kept as a record of its five values.
- Class-name reflection: `self.__class__.__name__` (homework.py:69) becomes the fixed name `Training.ClassName` of each datatype constructor.
- Output and the sample driver: `main` prints to standard output (homework.py:174-179), and the `__main__` loop runs the samples (homework.py:182-190). Both are I/O. The samples appear only as inputs to the lemmas in `Samples`.
- The base `Training.get_spent_calories` returns `None` (homework.py:61-63). `read_package` never builds a bare `Training`, so the datatype has no constructor for it.
- IEEE-754 rounding: the formulas are evaluated over exact reals. The sample values are the exact results; Python's floats may differ in the last digits.
- `Dispatch.ArityMismatch` carries the code, the expected field count and the given count. Python's `TypeError` message text is not modelled. Nor is Python's way of counting: with too few fields it names the missing positional arguments, and with too many it counts `self` in the numbers it reports.
- Argument types: Python would also accept non-numeric list elements, and would raise later. The model's data list holds reals only.
