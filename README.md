# Fitness-tracker calculator in Dafny

This project models `homework.py`, a small fitness-tracker module. It covers
three kinds of training: running, sports walking and swimming. From raw sensor
readings, each kind computes:

- the distance in kilometres,
- the mean speed in km/h,
- the calories spent.

The module also bundles those values into an information message, and
`read_package` builds a training from an activity code (`SWM`, `RUN`, `WLK`)
and a positional list of readings.

Everything is in `homework.dfy`, module `Homework`:

- `Training` is a closed datatype with one constructor per training class:
  `Running`, `SportsWalking` and `Swimming`. Each constructor carries the
  fields its class's constructor sets.
- `Distance`, `MeanSpeed` and `Calories` are the getters. A `match` replaces
  the method overrides.
- `FloorDiv` is Python's `//` on floats: the floor of the real quotient.
- `ShowTrainingInfo` builds the `InfoMessage` record.
- `ReadPackage` returns a `Result`. `UnknownWorkout(code)` stands for the
  `KeyError` of the dictionary lookup. `WrongArity(code, expected, given)`
  stands for the `TypeError` of unpacking the wrong number of readings. The
  code is looked up before the readings are counted, as in the source.

All quantities are `real`. The lemmas therefore prove the exact-arithmetic
formulas, not the IEEE-754 results the program computes. The source's type
hints (`action: int`, `height: int`, ...) are not enforced by Python. The
readings list is numeric, so every field is a `real`; the driver's integer
readings are reals with no fractional part.

The getters divide by the duration, and the walking formula also divides by
the height. Python raises `ZeroDivisionError` on a zero divisor and accepts any
other value, negative ones included. So the preconditions ask for
`duration != 0` and, for walking, `height != 0` (predicate `Computable`). They
do not ask for positive values. `read_package` itself never divides, so it has
no such precondition.

Two consequences of following the code exactly:

- The driver's running package gives (18 × 9.75 − 20) × 75 / 1000 × 1 × 60 =
  699.75 kcal, and `RunningPackage` proves that value.
- The getters accept any non-zero duration and height, negative ones included.
  `WalkingTermFloors` shows what a negative height does to the walking formula.

## Model

| member | source | states |
|---|---|---|
| `Homework.Distance` | homework.py:46-48 | The distance is non-negative exactly when the step or stroke count is. The swimming override at homework.py:141-143 computes the same product with its own step length. |
| `Homework.DistanceFormula` | homework.py:34-48 | The distance is count × 0.65 / 1000 for running and walking, and count × 1.38 / 1000 for swimming. |
| `Homework.StepsOfDistance` | homework.py:46-48 | The step or stroke count is recovered from the distance: distance × 1000 / step length = count. |
| `Homework.StepSpeedTimesDuration` | homework.py:50-52 | For running and walking, speed × duration is the distance. Over a positive duration the speed is non-negative exactly when the step count is. |
| `Homework.SpeedFollowsSteps` | homework.py:50-52 | For running and walking over a positive duration, changing the step count changes the speed, and a larger count gives a strictly larger speed. |
| `Homework.PoolSpeedTimesDuration` | homework.py:129-132 | Swimming speed × duration × 1000 is pool length × lengths swum. Over a positive duration the speed is non-negative exactly when that product is. |
| `Homework.SwimmingIgnoresStrokes` | homework.py:129-143 | Changing a swim's stroke count leaves its speed and calories unchanged. Its distance changes whenever the count does. |
| `Homework.RunningCalories` | homework.py:77-81 | Running calories are (18 × speed − 20) × weight / 1000 × duration × 60. For a positive weight and duration they are positive exactly when 18 × speed > 20. |
| `Homework.FloorDivBounds` | homework.py:104 | `a // b` is the integer k with k × b ≤ a < (k + 1) × b for b > 0, and (k + 1) × b < a ≤ k × b for b < 0. |
| `Homework.FloorDivOfSmall` | homework.py:104 | A non-negative dividend over a positive divisor floors to a natural number. It floors to 0 exactly when the dividend is below the divisor. |
| `Homework.FloorDiv` | homework.py:104 | `a // b` is the integer k with k ≤ a / b < k + 1: the floor, not truncation toward zero. |
| `Homework.WalkingCalories` | homework.py:99-106 | For every non-zero height the calories are (0.035 × weight + (speed² // height) × 0.029 × weight) × duration × 60. For a positive height, if speed² < height they are 0.035 × weight × duration × 60. For a positive height, weight and duration they never fall below that baseline, and they equal it exactly when speed² < height. |
| `Homework.WalkingTermFloors` | homework.py:104 | The walking term floors rather than truncates. With height −180 and speed 5.85 it is −1, giving 27 kcal instead of 157.5. |
| `Homework.SwimmingCalories` | homework.py:135-138 | Swimming calories are (speed + 1.1) × 2 × weight. For a non-zero weight the speed is recovered from the calories. |
| `Homework.Calories` | homework.py:77-138 | With zero weight, every kind spends zero calories. |
| `Homework.CaloriesPerKgOfWeight` | homework.py:77-138 | For every kind, the calories are the weight times a per-kilogram factor. That factor does not change when the weight does. |
| `Homework.CaloriesScaleWithWeight` | homework.py:77-138 | For every kind, scaling the weight by a factor scales the calories by the same factor. |
| `Homework.ShowTrainingInfo` | homework.py:58-64 | The report carries the kind's class name, the input duration unchanged, and exactly the session's own distance, speed and calories. |
| `Homework.TypeName` | homework.py:60 | The report's name is `Running`, `SportsWalking` or `Swimming` exactly when the session is of that class. |
| `Homework.TypeNameIdentifiesKind` | homework.py:60 | Two reports carry the same type name exactly when their sessions are of the same kind. |
| `Homework.Arity` | homework.py:148-152 | Every session whose code is a known code has exactly that code's number of readings: 5 for `SWM`, 3 for `RUN`, 4 for `WLK`. |
| `Homework.ReadPackage` | homework.py:146-152 | Reading succeeds exactly for `SWM` with 5 readings, `RUN` with 3 and `WLK` with 4. A success reads back to the same code and readings, so the code selects the class and the readings fill its fields in order. Any other code fails with `UnknownWorkout` carrying the code. A known code with any other count fails with exactly `WrongArity(code, Arity(code), count given)`. |
| `Homework.ReadPackageOfFields` | homework.py:146-152 | Every session is read back from its own code and its readings in positional order. |
| `Homework.ReportOfPackage` | homework.py:58-64 | The report of a read session names the class its code selects and carries the duration reading unchanged. |
| `Homework.SwimmingPackage` | homework.py:163 | The driver's swim 720/1/80/25/40 reports distance 0.9936, speed 1 and 336 kcal. |
| `Homework.RunningPackage` | homework.py:164 | The driver's run 15000/1/75 reports distance 9.75, speed 9.75 and 699.75 kcal. |
| `Homework.WalkingPackage` | homework.py:165 | The driver's walk 9000/1/75/180 has floor term 0, and reports distance 5.85, speed 5.85 and 157.5 kcal. |
| `Homework.RejectedPackages` | homework.py:148-152 | Code `XYZ` fails with `UnknownWorkout("XYZ")`. `RUN` with two readings fails with `WrongArity`. |

## Left out

- `InfoMessage.get_message` (homework.py:21-29) is left out. It formats floats to three decimals into a fixed text template, and decimal formatting of reals is not modelled. `InfoMessage` is kept as a record of its five fields.
- `main` and the `__main__` loop (homework.py:155-170) are left out. They print to standard output. Their three packages appear only as the example lemmas.
- The base `Training.get_spent_calories` (homework.py:54-56) is left out. It returns `None`, and the closed datatype has no base-only value on which it could be called.
- IEEE-754 rounding is left out. Every quantity is an exact `real`, so the proofs are about the exact formulas.
- A zero duration or a zero walking height raises `ZeroDivisionError` in the getters. The model makes these preconditions (`Computable`) rather than error results.
- Python's dynamic typing is left out. A non-numeric reading would fail only inside a getter; readings are modelled as reals.
- Python's reflective pieces are replaced. `self.__class__.__name__` becomes the fixed names in `TypeName`. The dictionary of classes with `*data` unpacking becomes a match on the code plus a length check. The duplicated class-level and instance `LEN_STEP` of `Swimming` becomes the single constant 1.38.
- Calories: its own contract states only that zero weight gives zero calories. The formula of each kind is stated by `RunningCalories`, `WalkingCalories` (for every non-zero height) and `SwimmingCalories`, and the weight scaling by `CaloriesScaleWithWeight` and `CaloriesPerKgOfWeight`.
- MeanSpeed: carries no contract of its own. Speed × duration is a product of two unknowns, and such a clause on the function makes the other speed lemmas unstable. Its properties are stated by `StepSpeedTimesDuration`, `PoolSpeedTimesDuration`, `SpeedFollowsSteps` and `SwimmingIgnoresStrokes`.
