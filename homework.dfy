/**
 * The fitness-tracker calculator: three kinds of training (running, sports
 * walking, swimming), each turning raw sensor readings into a distance in
 * kilometres, a mean speed in km/h and the calories spent; a report record
 * bundling those values; and the reader that builds a training from an
 * activity code and a positional list of readings.
 *
 * Every quantity is a `real`, so the formulas below are the exact-arithmetic
 * versions of the program's floating-point ones.
 */
module Homework {

  /** Metres in a kilometre. */
  const M_IN_KM: real := 1000.0
  /** Minutes in an hour: the calorie formulas take the duration in minutes. */
  const MIN_IN_H: real := 60.0
  /** Length of one running or walking step, in metres. */
  const LEN_STEP: real := 0.65
  /** Length of one swimming stroke, in metres. */
  const SWIM_LEN_STEP: real := 1.38

  const COEFF_RUNNING_CALORIES: real := 18.0
  /** Subtracted from the scaled running speed (the program calls it SWIMMING_SPEED_INCREMENT). */
  const RUNNING_SPEED_SHIFT: real := 20.0
  const COEFF_WALKING_CALORIES_1: real := 0.035
  const COEFF_WALKING_CALORIES_2: real := 0.029
  const COEFF_SWIM_CALORIE_1: real := 1.1
  const COEFF_SWIM_CALORIE_2: real := 2.0

  /** The recognised activity codes. */
  const SWM: string := "SWM"
  const RUN: string := "RUN"
  const WLK: string := "WLK"

  /**
   * One training session. `action` counts steps (running, walking) or strokes
   * (swimming); `duration` is in hours, `weight` in kilograms, `height` in
   * centimetres, `lengthPool` in metres and `countPool` is the number of
   * pool lengths swum.
   */
  datatype Training =
    | Running(action: real, duration: real, weight: real)
    | SportsWalking(action: real, duration: real, weight: real, height: real)
    | Swimming(action: real, duration: real, weight: real, lengthPool: real, countPool: real)

  /** The report of one session: the five fields of the information message. */
  datatype InfoMessage = InfoMessage(
    trainingType: string,
    duration: real,
    distance: real,
    speed: real,
    calories: real)

  /**
   * Why a package could not be read: an activity code with no training kind
   * (a failed dictionary lookup), or a reading list whose length is not the
   * number of constructor parameters of the kind (a failed unpacking).
   */
  datatype ReadError =
    | UnknownWorkout(code: string)
    | WrongArity(code: string, expected: nat, given: nat)

  datatype Result<T> = Ok(value: T) | Err(error: ReadError)

  /** The divisors the formulas use are non-zero. */
  predicate Computable(t: Training)
  {
    t.duration != 0.0 && (t.SportsWalking? ==> t.height != 0.0)
  }

  /** Metres covered by one step or stroke. */
  function StepLength(t: Training): (len: real)
    ensures len > 0.0
  {
    if t.Swimming? then SWIM_LEN_STEP else LEN_STEP
  }

  /** Distance in kilometres: the number of steps or strokes times their length. */
  function Distance(t: Training): (km: real)
    ensures km >= 0.0 <==> t.action >= 0.0
  {
    t.action * StepLength(t) / M_IN_KM
  }

  /**
   * Mean speed in km/h. Running and walking divide the distance by the
   * duration; swimming uses the pool length and the number of lengths swum,
   * not the stroke count.
   */
  function MeanSpeed(t: Training): real
    requires t.duration != 0.0
  {
    match t
    case Swimming(_, duration, _, lengthPool, countPool) =>
      lengthPool * countPool / M_IN_KM / duration
    case _ =>
      Distance(t) / t.duration
  }

  /** Floor division on reals, as `//` does it: the largest integer not above `a / b`. */
  function FloorDiv(a: real, b: real): (k: int)
    requires b != 0.0
    ensures k as real <= a / b < k as real + 1.0
  {
    (a / b).Floor
  }

  /** The integer term `speed ** 2 // height` of the walking formula. */
  function WalkingFloorTerm(speed: real, height: real): int
    requires height != 0.0
  {
    FloorDiv(speed * speed, height)
  }

  /** Calories spent, by the formula of the training's kind. */
  function Calories(t: Training): (kcal: real)
    requires Computable(t)
    ensures t.weight == 0.0 ==> kcal == 0.0
  {
    match t
    case Running(_, duration, weight) =>
      (COEFF_RUNNING_CALORIES * MeanSpeed(t) - RUNNING_SPEED_SHIFT)
        * weight / M_IN_KM * duration * MIN_IN_H
    case SportsWalking(_, duration, weight, _) =>
      (COEFF_WALKING_CALORIES_1 * weight
        + WalkingFloorTerm(MeanSpeed(t), t.height) as real * COEFF_WALKING_CALORIES_2 * weight)
        * duration * MIN_IN_H
    case Swimming(_, _, weight, _, _) =>
      (MeanSpeed(t) + COEFF_SWIM_CALORIE_1) * COEFF_SWIM_CALORIE_2 * weight
  }

  /** The name of the training's kind, as the report shows it. */
  function TypeName(t: Training): (name: string)
    ensures name == "Running" <==> t.Running?
    ensures name == "SportsWalking" <==> t.SportsWalking?
    ensures name == "Swimming" <==> t.Swimming?
  {
    match t
    case Running(_, _, _) => "Running"
    case SportsWalking(_, _, _, _) => "SportsWalking"
    case Swimming(_, _, _, _, _) => "Swimming"
  }

  /** The report of a session: its kind, its duration and the three computed values. */
  function ShowTrainingInfo(t: Training): (info: InfoMessage)
    requires Computable(t)
    ensures info.trainingType == TypeName(t)
    ensures info.duration == t.duration
    ensures info.distance == Distance(t)
    ensures info.speed == MeanSpeed(t)
    ensures info.calories == Calories(t)
  {
    InfoMessage(TypeName(t), t.duration, Distance(t), MeanSpeed(t), Calories(t))
  }

  /** The activity code a session is read from. */
  function Code(t: Training): string
  {
    match t
    case Running(_, _, _) => RUN
    case SportsWalking(_, _, _, _) => WLK
    case Swimming(_, _, _, _, _) => SWM
  }

  /** The readings of a session in the positional order the reader takes them. */
  function Fields(t: Training): seq<real>
  {
    match t
    case Running(action, duration, weight) => [action, duration, weight]
    case SportsWalking(action, duration, weight, height) => [action, duration, weight, height]
    case Swimming(action, duration, weight, lengthPool, countPool) =>
      [action, duration, weight, lengthPool, countPool]
  }

  /** Whether a code names a training kind. */
  predicate KnownCode(code: string)
  {
    code == SWM || code == RUN || code == WLK
  }

  /** The number of readings the constructor of a code's kind takes. */
  function Arity(code: string): (n: nat)
    requires KnownCode(code)
    ensures forall t: Training :: Code(t) == code ==> |Fields(t)| == n
  {
    if code == SWM then 5 else if code == RUN then 3 else 4
  }

  /**
   * Builds a session from an activity code and its readings. An unknown code
   * fails first; a known code fails when the number of readings is not the
   * number its kind takes.
   */
  function ReadPackage(workoutType: string, data: seq<real>): (r: Result<Training>)
    ensures r.Ok? <==>
      || (workoutType == SWM && |data| == 5)
      || (workoutType == RUN && |data| == 3)
      || (workoutType == WLK && |data| == 4)
    ensures r.Ok? ==> Code(r.value) == workoutType && Fields(r.value) == data
    ensures !KnownCode(workoutType) ==> r == Err(UnknownWorkout(workoutType))
    ensures KnownCode(workoutType) ==>
      (r.Ok? <==> |data| == Arity(workoutType))
    ensures KnownCode(workoutType) && !r.Ok? ==>
      r == Err(WrongArity(workoutType, Arity(workoutType), |data|))
  {
    if workoutType == SWM then
      if |data| == 5 then Ok(Swimming(data[0], data[1], data[2], data[3], data[4]))
      else Err(WrongArity(workoutType, 5, |data|))
    else if workoutType == RUN then
      if |data| == 3 then Ok(Running(data[0], data[1], data[2]))
      else Err(WrongArity(workoutType, 3, |data|))
    else if workoutType == WLK then
      if |data| == 4 then Ok(SportsWalking(data[0], data[1], data[2], data[3]))
      else Err(WrongArity(workoutType, 4, |data|))
    else
      Err(UnknownWorkout(workoutType))
  }

  // ---------------------------------------------------------------------
  // Properties of the reader
  // ---------------------------------------------------------------------

  /** Every session is read back from its own code and readings. */
  lemma ReadPackageOfFields(t: Training)
    ensures ReadPackage(Code(t), Fields(t)) == Ok(t)
  {
  }

  /** The report of a session that was read names the kind its code selects and keeps the duration reading. */
  lemma ReportOfPackage(workoutType: string, data: seq<real>)
    requires ReadPackage(workoutType, data).Ok?
    requires Computable(ReadPackage(workoutType, data).value)
    ensures var info := ShowTrainingInfo(ReadPackage(workoutType, data).value);
      && info.duration == data[1]
      && info.trainingType == (if workoutType == SWM then "Swimming"
                               else if workoutType == RUN then "Running"
                               else "SportsWalking")
  {
  }

  /** Two reports carry the same type name exactly when they describe the same kind of training. */
  lemma TypeNameIdentifiesKind(t1: Training, t2: Training)
    ensures TypeName(t1) == TypeName(t2) <==> Code(t1) == Code(t2)
  {
  }

  /** The same session with another step or stroke count. */
  function WithAction(t: Training, action: real): (u: Training)
    ensures Code(u) == Code(t) && u.action == action
    ensures Fields(u) == Fields(t)[0 := action]
  {
    match t
    case Running(_, duration, weight) => Running(action, duration, weight)
    case SportsWalking(_, duration, weight, height) => SportsWalking(action, duration, weight, height)
    case Swimming(_, duration, weight, lengthPool, countPool) =>
      Swimming(action, duration, weight, lengthPool, countPool)
  }

  /** The same session with another body weight. */
  function WithWeight(t: Training, weight: real): (u: Training)
    ensures Code(u) == Code(t) && u.weight == weight
    ensures Fields(u) == Fields(t)[2 := weight]
  {
    match t
    case Running(action, duration, _) => Running(action, duration, weight)
    case SportsWalking(action, duration, _, height) => SportsWalking(action, duration, weight, height)
    case Swimming(action, duration, _, lengthPool, countPool) =>
      Swimming(action, duration, weight, lengthPool, countPool)
  }

  // ---------------------------------------------------------------------
  // Properties of the formulas
  // ---------------------------------------------------------------------

  /** The step or stroke count is recovered from the distance. */
  lemma StepsOfDistance(t: Training)
    ensures Distance(t) * M_IN_KM / StepLength(t) == t.action
  {
  }

  /**
   * Running and walking speed times the duration is the distance covered;
   * over a positive duration the speed is non-negative exactly when the step
   * count is.
   */
  lemma StepSpeedTimesDuration(t: Training)
    requires !t.Swimming? && t.duration != 0.0
    ensures MeanSpeed(t) * t.duration == Distance(t)
    ensures t.duration > 0.0 ==> (MeanSpeed(t) >= 0.0 <==> t.action >= 0.0)
  {
  }

  /**
   * Swimming speed times the duration is the pool length times the lengths
   * swum, in kilometres; over a positive duration the speed is non-negative
   * exactly when that product is.
   */
  lemma PoolSpeedTimesDuration(t: Training)
    requires t.Swimming? && t.duration != 0.0
    ensures MeanSpeed(t) * t.duration * M_IN_KM == t.lengthPool * t.countPool
    ensures t.duration > 0.0 ==> (MeanSpeed(t) >= 0.0 <==> t.lengthPool * t.countPool >= 0.0)
  {
  }

  /** Floor division brackets the dividend between two consecutive multiples of the divisor. */
  lemma FloorDivBounds(a: real, b: real)
    requires b != 0.0
    ensures var k := FloorDiv(a, b);
      && (b > 0.0 ==> k as real * b <= a < (k + 1) as real * b)
      && (b < 0.0 ==> (k + 1) as real * b < a <= k as real * b)
  {
    var q := a / b;
    var k := q.Floor;
    assert q * b == a;
    assert k as real <= q < k as real + 1.0;
    assert (k + 1) as real == k as real + 1.0;
    MulLt(q, k as real, b);
    MulLt(q, k as real + 1.0, b);
    assert b > 0.0 ==> a < (k as real + 1.0) * b;
    assert b < 0.0 ==> (k as real + 1.0) * b < a;
  }

  /** A non-negative quotient floors to a non-negative integer, and to 0 exactly when the dividend is below the divisor. */
  lemma FloorDivOfSmall(a: real, b: real)
    requires a >= 0.0 && b > 0.0
    ensures FloorDiv(a, b) >= 0
    ensures FloorDiv(a, b) == 0 <==> a < b
  {
    var q := a / b;
    assert q * b == a;
    MulLt(q, 0.0, b);
    MulLt(q, 1.0, b);
    assert q >= 0.0 && (q < 1.0 <==> a < b);
    assert q.Floor as real <= q < q.Floor as real + 1.0;
  }

  /** Multiplying both sides of `x < y` by `c` keeps the order when `c` is positive and flips it when `c` is negative. */
  lemma MulLt(x: real, y: real, c: real)
    ensures c > 0.0 ==> (x < y <==> x * c < y * c)
    ensures c < 0.0 ==> (x < y <==> y * c < x * c)
  {
  }

  /** Distance is steps (or strokes) times their length, scaled to kilometres. */
  lemma DistanceFormula(t: Training)
    ensures t.Swimming? ==> Distance(t) == t.action * 1.38 / 1000.0
    ensures !t.Swimming? ==> Distance(t) == t.action * 0.65 / 1000.0
  {
  }

  /** Running and walking speed is the distance over the duration and grows with the step count. */
  lemma SpeedFollowsSteps(t: Training, action: real)
    requires !t.Swimming? && t.duration > 0.0
    ensures MeanSpeed(WithAction(t, action)) == MeanSpeed(t) <==> action == t.action
    ensures action > t.action ==> MeanSpeed(WithAction(t, action)) > MeanSpeed(t)
  {
    var u := WithAction(t, action);
    assert MeanSpeed(u) - MeanSpeed(t) == (action - t.action) * (LEN_STEP / M_IN_KM / t.duration);
    MulLt(0.0, action - t.action, LEN_STEP / M_IN_KM / t.duration);
  }

  /**
   * The stroke count of a swim changes its distance, and only its distance:
   * the speed and the calories do not depend on it.
   */
  lemma SwimmingIgnoresStrokes(t: Training, action: real)
    requires t.Swimming? && Computable(t)
    ensures MeanSpeed(WithAction(t, action)) == MeanSpeed(t)
    ensures Calories(WithAction(t, action)) == Calories(t)
    ensures Distance(WithAction(t, action)) == Distance(t) <==> action == t.action
  {
  }

  /**
   * Running calories: (18 * speed - 20) * weight / 1000 * minutes. For a
   * positive weight and duration they are positive exactly when the speed
   * exceeds 20/18 km/h.
   */
  lemma RunningCalories(t: Training)
    requires t.Running? && Computable(t)
    ensures Calories(t) == (18.0 * MeanSpeed(t) - 20.0) * t.weight / 1000.0 * t.duration * 60.0
    ensures t.weight > 0.0 && t.duration > 0.0 ==>
      (Calories(t) > 0.0 <==> 18.0 * MeanSpeed(t) > 20.0)
  {
  }

  /**
   * Walking calories: (0.035 * weight + (speed ** 2 // height) * 0.029 * weight)
   * * minutes. For a positive height the floor term never makes them smaller
   * than the weight-only baseline 0.035 * weight * minutes (for a positive
   * weight and duration), and they equal that baseline when the squared speed
   * is below the height.
   */
  lemma WalkingCalories(t: Training)
    requires t.SportsWalking? && Computable(t)
    ensures Calories(t) ==
      (0.035 * t.weight + WalkingFloorTerm(MeanSpeed(t), t.height) as real * 0.029 * t.weight)
        * t.duration * 60.0
    ensures t.height > 0.0 && MeanSpeed(t) * MeanSpeed(t) < t.height ==>
      Calories(t) == 0.035 * t.weight * t.duration * 60.0
    ensures t.height > 0.0 && t.weight > 0.0 && t.duration > 0.0 ==>
      Calories(t) >= 0.035 * t.weight * t.duration * 60.0
    ensures t.height > 0.0 && t.weight > 0.0 && t.duration > 0.0 ==>
      (Calories(t) == 0.035 * t.weight * t.duration * 60.0 <==> MeanSpeed(t) * MeanSpeed(t) < t.height)
  {
    WalkingCaloriesFormula(t);
    var k := WalkingFloorTerm(MeanSpeed(t), t.height);
    var base := 0.035 * t.weight * t.duration * 60.0;
    var c := 0.029 * t.weight * t.duration * 60.0;
    BaselinePlusTerm(t.weight, t.duration, k, c);
    assert Calories(t) == base + k as real * c;
    if t.height > 0.0 {
      FloorDivOfSmall(MeanSpeed(t) * MeanSpeed(t), t.height);
      if t.weight > 0.0 && t.duration > 0.0 {
        TermAboveBaseline(Calories(t), base, k, c);
      }
    }
  }

  /** The walking calorie formula, for every non-zero height. */
  lemma WalkingCaloriesFormula(t: Training)
    requires t.SportsWalking? && Computable(t)
    ensures Calories(t) ==
      (0.035 * t.weight + WalkingFloorTerm(MeanSpeed(t), t.height) as real * 0.029 * t.weight)
        * t.duration * 60.0
  {
  }

  /** A non-negative integer share of a positive amount added to a baseline never lowers it, and keeps it only when the share is 0. */
  lemma TermAboveBaseline(total: real, base: real, k: int, c: real)
    requires total == base + k as real * c && k >= 0 && c > 0.0
    ensures total >= base
    ensures total == base <==> k == 0
  {
    MulLt(0.0, k as real, c);
  }

  /** The walking formula split into the weight-only baseline and the floor term's share. */
  lemma BaselinePlusTerm(weight: real, duration: real, k: int, c: real)
    requires c == 0.029 * weight * duration * 60.0
    ensures (0.035 * weight + k as real * 0.029 * weight) * duration * 60.0
      == 0.035 * weight * duration * 60.0 + k as real * c
  {
  }

  /** Swimming calories are (speed + 1.1) * 2 * weight, so the speed is recovered from them. */
  lemma SwimmingCalories(t: Training)
    requires t.Swimming? && Computable(t)
    ensures Calories(t) == (MeanSpeed(t) + 1.1) * 2.0 * t.weight
    ensures t.weight != 0.0 ==> Calories(t) / (2.0 * t.weight) - 1.1 == MeanSpeed(t)
  {
    if t.weight != 0.0 {
      var v := MeanSpeed(t) + 1.1;
      assert Calories(t) == v * (2.0 * t.weight);
      assert v * (2.0 * t.weight) / (2.0 * t.weight) == v;
    }
  }

  /** Calories per kilogram of body weight: the calorie formula with the weight factored out. */
  ghost function CaloriesPerKg(t: Training): real
    requires Computable(t)
  {
    match t
    case Running(_, duration, _) =>
      (COEFF_RUNNING_CALORIES * MeanSpeed(t) - RUNNING_SPEED_SHIFT) / M_IN_KM * duration * MIN_IN_H
    case SportsWalking(_, duration, _, _) =>
      (COEFF_WALKING_CALORIES_1 + WalkingFloorTerm(MeanSpeed(t), t.height) as real * COEFF_WALKING_CALORIES_2)
        * duration * MIN_IN_H
    case Swimming(_, _, _, _, _) =>
      (MeanSpeed(t) + COEFF_SWIM_CALORIE_1) * COEFF_SWIM_CALORIE_2
  }

  /** For every kind, the calories are the weight times a factor that does not depend on the weight. */
  lemma CaloriesPerKgOfWeight(t: Training, weight: real)
    requires Computable(t)
    ensures Calories(t) == t.weight * CaloriesPerKg(t)
    ensures CaloriesPerKg(WithWeight(t, weight)) == CaloriesPerKg(t)
  {
    match t
    case Running(_, _, _) =>
    case SportsWalking(_, _, _, _) =>
    case Swimming(_, _, _, _, _) =>
  }

  /** For every kind, the calories are proportional to the weight. */
  lemma CaloriesScaleWithWeight(t: Training, factor: real)
    requires Computable(t)
    ensures Calories(WithWeight(t, factor * t.weight)) == factor * Calories(t)
  {
    var u := WithWeight(t, factor * t.weight);
    CaloriesPerKgOfWeight(t, factor * t.weight);
    CaloriesPerKgOfWeight(u, t.weight);
    assert Calories(u) == factor * t.weight * CaloriesPerKg(t);
  }

  /**
   * The walking term uses floor division, not truncation toward zero: with a
   * height of -180 the squared speed 5.85 ** 2 over the height is -0.19...,
   * whose floor is -1 where truncation would give 0, so the calories are
   * (0.035 - 0.029) * 75 * 60 = 27 rather than 157.5.
   */
  lemma WalkingTermFloors()
    ensures WalkingFloorTerm(5.85, -180.0) == -1
    ensures Calories(SportsWalking(9000.0, 1.0, 75.0, -180.0)) == 27.0
  {
  }

  // ---------------------------------------------------------------------
  // The driver's packages
  // ---------------------------------------------------------------------

  /** Swimming 720 strokes in 1 h at 80 kg, 40 lengths of a 25 m pool. */
  lemma SwimmingPackage()
    ensures ReadPackage(SWM, [720.0, 1.0, 80.0, 25.0, 40.0]).Ok?
    ensures ShowTrainingInfo(ReadPackage(SWM, [720.0, 1.0, 80.0, 25.0, 40.0]).value)
      == InfoMessage("Swimming", 1.0, 0.9936, 1.0, 336.0)
  {
  }

  /** Running 15000 steps in 1 h at 75 kg. */
  lemma RunningPackage()
    ensures ReadPackage(RUN, [15000.0, 1.0, 75.0]).Ok?
    ensures ShowTrainingInfo(ReadPackage(RUN, [15000.0, 1.0, 75.0]).value)
      == InfoMessage("Running", 1.0, 9.75, 9.75, 699.75)
  {
  }

  /** Walking 9000 steps in 1 h at 75 kg and 180 cm: the floor term is 0. */
  lemma WalkingPackage()
    ensures ReadPackage(WLK, [9000.0, 1.0, 75.0, 180.0]).Ok?
    ensures WalkingFloorTerm(5.85, 180.0) == 0
    ensures ShowTrainingInfo(ReadPackage(WLK, [9000.0, 1.0, 75.0, 180.0]).value)
      == InfoMessage("SportsWalking", 1.0, 5.85, 5.85, 157.5)
  {
  }

  /** An unknown code and a short running package are both refused. */
  lemma RejectedPackages()
    ensures ReadPackage("XYZ", [1.0, 2.0, 3.0]) == Err(UnknownWorkout("XYZ"))
    ensures ReadPackage(RUN, [15000.0, 1.0]) == Err(WrongArity(RUN, 3, 2))
  {
  }
}
