/**
 * The per-activity formula set of the workout calculator: the base training
 * (distance from a step length, mean speed as distance over duration) and its
 * three variants, each overriding only the formulas it changes.
 *
 * Python floats are idealised as exact reals; the floor division of the
 * walking formula is `.Floor`, which rounds toward minus infinity as Python's
 * `//` does.
 */
module Training {

  // Unit constants of the base training.
  const LEN_STEP: real := 0.65         // metres covered by one step
  const M_IN_KM: real := 1000.0        // metres in a kilometre
  const MIN_IN_HOUR: real := 60.0      // minutes in an hour

  // Running calorie coefficients.
  const RUN_COEFF_CAL_1: real := 18.0
  const RUN_COEFF_CAL_2: real := 20.0

  // Sports walking calorie coefficients.
  const WLK_COEFF_CAL_1: real := 0.035
  const WLK_COEFF_CAL_2: real := 0.029

  // Swimming overrides the step length (one paddle) and has its own coefficients.
  const SWM_LEN_STEP: real := 1.38
  const SWM_COEFF_CAL_1: real := 1.1
  const SWM_COEFF_CAL_2: real := 2.0

  /**
   * One training session: the shared fields (number of actions, duration in
   * hours, weight in kilograms) plus the fields of its variant.
   */
  datatype Workout =
    | Running(action: real, duration: real, weight: real)
    | SportsWalking(action: real, duration: real, weight: real, height: real)
    | Swimming(action: real, duration: real, weight: real, lengthPool: real, countPool: real)

  /** The length covered by one action, in metres (the class constant LEN_STEP). */
  function StepLength(w: Workout): (r: real)
    ensures r > 0.0
    ensures w.Swimming? ==> r == SWM_LEN_STEP
    ensures !w.Swimming? ==> r == LEN_STEP
  {
    if w.Swimming? then SWM_LEN_STEP else LEN_STEP
  }

  /** Distance covered, in kilometres. */
  function Distance(w: Workout): (r: real)
    ensures w.action >= 0.0 ==> r >= 0.0
    ensures w.action == 0.0 <==> r == 0.0
  {
    w.action * StepLength(w) / M_IN_KM
  }

  /**
   * Mean speed, in kilometres per hour. The base formula divides the distance
   * by the duration; swimming replaces it by pool length times laps, in
   * kilometres, over the duration. Python raises on a zero duration.
   */
  function MeanSpeed(w: Workout): (r: real)
    requires w.duration != 0.0
    ensures !w.Swimming? ==> r * w.duration == Distance(w)
    ensures w.Swimming? ==> r * w.duration * M_IN_KM == w.lengthPool * w.countPool
  {
    match w
    case Swimming(_, duration, _, lengthPool, countPool) =>
      lengthPool * countPool / M_IN_KM / duration
    case _ => Distance(w) / w.duration
  }

  /**
   * When the calories can be computed without a division by zero: every
   * variant divides by the duration through the mean speed, and walking
   * floor-divides by the height.
   */
  predicate CaloriesDefined(w: Workout)
  {
    w.duration != 0.0 && (w.SportsWalking? ==> w.height != 0.0)
  }

  /** Python's `x ** 2`. */
  function Square(x: real): (r: real)
    ensures r >= 0.0
  {
    x * x
  }

  /** Python's floor division `x // y`: the greatest integer not above `x / y`. */
  function FloorDiv(x: real, y: real): (r: int)
    requires y != 0.0
    ensures r as real <= x / y < r as real + 1.0
  {
    (x / y).Floor
  }

  /** The floor term of the walking formula: the squared mean speed floor-divided by the height. */
  function WalkQuotient(w: Workout): (q: int)
    requires w.SportsWalking? && CaloriesDefined(w)
  {
    FloorDiv(Square(MeanSpeed(w)), w.height)
  }

  /** Calories spent, per variant; a session with no weight burns none. */
  function Calories(w: Workout): (r: real)
    requires CaloriesDefined(w)
    ensures w.weight == 0.0 ==> r == 0.0
  {
    match w
    case Running(_, duration, weight) =>
      (RUN_COEFF_CAL_1 * MeanSpeed(w) - RUN_COEFF_CAL_2) * weight / M_IN_KM
        * duration * MIN_IN_HOUR
    case SportsWalking(_, duration, weight, _) =>
      (WLK_COEFF_CAL_1 * weight + (WalkQuotient(w) as real) * WLK_COEFF_CAL_2 * weight)
        * duration * MIN_IN_HOUR
    case Swimming(_, _, weight, _, _) =>
      (MeanSpeed(w) + SWM_COEFF_CAL_1) * SWM_COEFF_CAL_2 * weight
  }

  /** The name of the training class, as the report shows it. */
  function ClassName(w: Workout): (name: string)
    ensures name == "Running" <==> w.Running?
    ensures name == "SportsWalking" <==> w.SportsWalking?
    ensures name == "Swimming" <==> w.Swimming?
  {
    match w
    case Running(_, _, _) => "Running"
    case SportsWalking(_, _, _, _) => "SportsWalking"
    case Swimming(_, _, _, _, _) => "Swimming"
  }

  /** The same session with a different number of actions. */
  function WithAction(w: Workout, a: real): (r: Workout)
    ensures r.action == a && r.duration == w.duration && r.weight == w.weight
  {
    w.(action := a)
  }

  // ---------------------------------------------------------------------------
  // Properties of the formulas
  // ---------------------------------------------------------------------------

  /** Distance is the number of actions times 0.65 m, or 1.38 m for swimming, in kilometres. */
  lemma DistancePerAction(w: Workout)
    ensures w.Swimming? ==> Distance(w) == w.action * 0.00138
    ensures !w.Swimming? ==> Distance(w) == w.action * 0.00065
  {
  }

  /** Distance grows with the number of actions, in every variant. */
  lemma DistanceMonotone(w: Workout, a1: real, a2: real)
    requires a1 <= a2
    ensures Distance(WithAction(w, a1)) <= Distance(WithAction(w, a2))
  {
    DistancePerAction(WithAction(w, a1));
    DistancePerAction(WithAction(w, a2));
  }

  /**
   * A swim's speed and calories do not depend on the number of paddles; its
   * distance does, and changes exactly when the number of paddles does.
   */
  lemma SwimmingIgnoresAction(w: Workout, a: real)
    requires w.Swimming? && w.duration != 0.0
    ensures MeanSpeed(WithAction(w, a)) == MeanSpeed(w)
    ensures Calories(WithAction(w, a)) == Calories(w)
    ensures Distance(WithAction(w, a)) == Distance(w) <==> a == w.action
  {
    DistancePerAction(w);
    DistancePerAction(WithAction(w, a));
  }

  /**
   * Running calories in closed form: the duration in the mean speed cancels
   * the duration factor, leaving
   * (18 * distance - 20 * duration) * weight * 60 / 1000.
   */
  lemma RunningCaloriesClosedForm(w: Workout)
    requires w.Running? && w.duration != 0.0
    ensures Calories(w)
         == (RUN_COEFF_CAL_1 * Distance(w) - RUN_COEFF_CAL_2 * w.duration)
            * w.weight * MIN_IN_HOUR / M_IN_KM
  {
    var s, d, m := MeanSpeed(w), w.duration, w.weight;
    calc {
      Calories(w);
    ==
      (RUN_COEFF_CAL_1 * s - RUN_COEFF_CAL_2) * m / M_IN_KM * d * MIN_IN_HOUR;
    ==
      (RUN_COEFF_CAL_1 * (s * d) - RUN_COEFF_CAL_2 * d) * m * MIN_IN_HOUR / M_IN_KM;
    == { assert s * d == Distance(w); }
      (RUN_COEFF_CAL_1 * Distance(w) - RUN_COEFF_CAL_2 * d) * m * MIN_IN_HOUR / M_IN_KM;
    }
  }

  /**
   * Walking calories never fall below the weight-only term
   * 0.035 * weight * duration * 60 for a positive height and duration and a
   * non-negative weight. They equal it when the squared speed is below the
   * height; for a positive weight, only then.
   */
  lemma WalkingCaloriesBaseline(w: Workout)
    requires w.SportsWalking? && w.duration > 0.0 && w.height > 0.0 && w.weight >= 0.0
    ensures Calories(w) >= WLK_COEFF_CAL_1 * w.weight * w.duration * MIN_IN_HOUR
    ensures Square(MeanSpeed(w)) < w.height ==>
              Calories(w) == WLK_COEFF_CAL_1 * w.weight * w.duration * MIN_IN_HOUR
    ensures w.weight > 0.0 && Calories(w) == WLK_COEFF_CAL_1 * w.weight * w.duration * MIN_IN_HOUR ==>
              Square(MeanSpeed(w)) < w.height
  {
    var x, h, m, d := Square(MeanSpeed(w)), w.height, w.weight, w.duration;
    var q := WalkQuotient(w);
    assert q >= 0 by {
      QuotientNonNegative(x, h);
    }
    var c := WLK_COEFF_CAL_2 * m * d * MIN_IN_HOUR;
    assert c >= 0.0 by {
      ProductNonNegative(WLK_COEFF_CAL_2 * m, d * MIN_IN_HOUR);
    }
    ProductNonNegative(q as real, c);
    WalkingCaloriesSplit(w);
    if x < h {
      FloorDivBelowDivisor(x, h);
    } else if m > 0.0 {
      FloorDivAtLeastOne(x, h);
      assert c > 0.0 by {
        ProductPositive(WLK_COEFF_CAL_2 * m, d * MIN_IN_HOUR);
      }
      ProductPositive(q as real, c);
    }
  }

  /** The walking formula as its weight-only term plus the floor term. */
  lemma WalkingCaloriesSplit(w: Workout)
    requires w.SportsWalking? && CaloriesDefined(w)
    ensures Calories(w)
         == WLK_COEFF_CAL_1 * w.weight * w.duration * MIN_IN_HOUR
            + (WalkQuotient(w) as real) * (WLK_COEFF_CAL_2 * w.weight * w.duration * MIN_IN_HOUR)
  {
    var q, m, d := WalkQuotient(w) as real, w.weight, w.duration;
    assert Calories(w) == (WLK_COEFF_CAL_1 * m + q * WLK_COEFF_CAL_2 * m) * d * MIN_IN_HOUR;
  }

  /** Swimming calories are at least 2.2 times the weight when weight and speed are non-negative. */
  lemma SwimmingCaloriesLowerBound(w: Workout)
    requires w.Swimming? && w.duration != 0.0
    requires w.weight >= 0.0 && MeanSpeed(w) >= 0.0
    ensures Calories(w) >= (SWM_COEFF_CAL_1 * SWM_COEFF_CAL_2) * w.weight
  {
    var s := MeanSpeed(w);
    assert Calories(w) == (SWM_COEFF_CAL_1 * SWM_COEFF_CAL_2) * w.weight + s * SWM_COEFF_CAL_2 * w.weight;
    assert s * SWM_COEFF_CAL_2 * w.weight >= 0.0;
  }

  /** Mean speed of a walk or run grows with the number of actions over a positive duration. */
  lemma MeanSpeedMonotone(w: Workout, a1: real, a2: real)
    requires !w.Swimming? && w.duration > 0.0 && a1 <= a2
    ensures MeanSpeed(WithAction(w, a1)) <= MeanSpeed(WithAction(w, a2))
  {
    var w1, w2 := WithAction(w, a1), WithAction(w, a2);
    DistanceMonotone(w, a1, a2);
    QuotientNonNegative(Distance(w2) - Distance(w1), w.duration);
    assert MeanSpeed(w2) - MeanSpeed(w1) == (Distance(w2) - Distance(w1)) / w.duration;
  }

  /**
   * Calories are non-decreasing in the number of actions, all else fixed:
   * for running with a non-negative weight, for walking with a non-negative
   * weight over a positive duration and height from a non-negative number of
   * steps, and for swimming always (they do not depend on the paddles).
   */
  lemma CaloriesMonotone(w: Workout, a1: real, a2: real)
    requires CaloriesDefined(w) && a1 <= a2
    requires w.Running? ==> w.weight >= 0.0
    requires w.SportsWalking? ==>
               0.0 <= a1 && w.duration > 0.0 && w.height > 0.0 && w.weight >= 0.0
    ensures Calories(WithAction(w, a1)) <= Calories(WithAction(w, a2))
  {
    match w
    case Running(_, _, _) => RunningCaloriesMonotone(w, a1, a2);
    case SportsWalking(_, _, _, _) => WalkingCaloriesMonotone(w, a1, a2);
    case Swimming(_, _, _, _, _) =>
      SwimmingIgnoresAction(w, a1);
      SwimmingIgnoresAction(w, a2);
  }

  /** Running calories are non-decreasing in the number of steps for a non-negative weight. */
  lemma RunningCaloriesMonotone(w: Workout, a1: real, a2: real)
    requires w.Running? && w.duration != 0.0 && a1 <= a2 && w.weight >= 0.0
    ensures Calories(WithAction(w, a1)) <= Calories(WithAction(w, a2))
  {
    var w1, w2 := WithAction(w, a1), WithAction(w, a2);
    RunningCaloriesClosedForm(w1);
    RunningCaloriesClosedForm(w2);
    DistanceMonotone(w, a1, a2);
    var k := w.weight * MIN_IN_HOUR / M_IN_KM;
    assert k >= 0.0;
    ProductNonNegative(RUN_COEFF_CAL_1 * (Distance(w2) - Distance(w1)), k);
    assert Calories(w2) - Calories(w1)
        == (RUN_COEFF_CAL_1 * (Distance(w2) - Distance(w1))) * k;
  }

  /**
   * Walking calories are non-decreasing in the number of steps from a
   * non-negative count, over a positive duration and height and for a
   * non-negative weight.
   */
  lemma WalkingCaloriesMonotone(w: Workout, a1: real, a2: real)
    requires w.SportsWalking? && w.duration > 0.0 && w.height > 0.0 && w.weight >= 0.0
    requires 0.0 <= a1 <= a2
    ensures Calories(WithAction(w, a1)) <= Calories(WithAction(w, a2))
  {
    var w1, w2 := WithAction(w, a1), WithAction(w, a2);
    var d, m, h := w.duration, w.weight, w.height;
    assert w1.height == h && w2.height == h;
    MeanSpeedMonotone(w, a1, a2);
    var s1, s2 := MeanSpeed(w1), MeanSpeed(w2);
    assert s1 >= 0.0 by {
      QuotientNonNegative(Distance(w1), d);
    }
    SquareMonotone(s1, s2);
    FloorDivMonotone(Square(s1), Square(s2), h);
    var q1, q2 := WalkQuotient(w1), WalkQuotient(w2);
    var c := WLK_COEFF_CAL_2 * m * d * MIN_IN_HOUR;
    ProductNonNegative(WLK_COEFF_CAL_2 * m, d * MIN_IN_HOUR);
    ProductNonNegative((q2 - q1) as real, c);
    WalkingCaloriesSplit(w1);
    WalkingCaloriesSplit(w2);
    assert Calories(w2) - Calories(w1) == (q2 - q1) as real * c;
  }

  /** Squaring is monotone on non-negative reals. */
  lemma SquareMonotone(x: real, y: real)
    requires 0.0 <= x <= y
    ensures Square(x) <= Square(y)
  {
    var xx, xy, yy := x * x, x * y, y * y;
    assert xx <= xy;
    assert xy <= yy;
    assert Square(x) == xx && Square(y) == yy;
  }

  /** Floor division by a positive divisor is monotone in the dividend. */
  lemma FloorDivMonotone(x1: real, x2: real, y: real)
    requires x1 <= x2 && y > 0.0
    ensures FloorDiv(x1, y) <= FloorDiv(x2, y)
  {
    QuotientNonNegative(x2 - x1, y);
    assert x1 / y <= x2 / y;
  }

  /** A non-negative dividend below a positive divisor floor-divides to zero. */
  lemma FloorDivBelowDivisor(x: real, y: real)
    requires 0.0 <= x < y
    ensures FloorDiv(x, y) == 0
  {
    QuotientNonNegative(x, y);
    assert x / y < 1.0 by {
      assert x / y * y == x;
    }
  }

  /** A dividend at least as large as a positive divisor floor-divides to at least one. */
  lemma FloorDivAtLeastOne(x: real, y: real)
    requires 0.0 < y <= x
    ensures FloorDiv(x, y) >= 1
  {
    var t := x / y;
    assert t * y == x;
    assert (t - 1.0) * y == x - y;
  }

  /** A product of positive reals is positive. */
  lemma ProductPositive(x: real, y: real)
    requires x > 0.0 && y > 0.0
    ensures x * y > 0.0
  {
  }

  /** A product of non-negative reals is non-negative. */
  lemma ProductNonNegative(x: real, y: real)
    requires x >= 0.0 && y >= 0.0
    ensures x * y >= 0.0
  {
  }

  /** A non-negative real over a positive one is non-negative. */
  lemma QuotientNonNegative(x: real, y: real)
    requires x >= 0.0 && y > 0.0
    ensures x / y >= 0.0
  {
  }

}
