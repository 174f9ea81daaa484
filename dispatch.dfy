/**
 * The dispatcher: a constant table from activity codes to training classes,
 * and the construction of a session from a positional list of sensor fields.
 */
module Dispatch {

  import opened Wrappers
  import opened Training

  /** The three classes that the table can name. */
  datatype TrainingClass = SwimmingClass | RunningClass | SportsWalkingClass

  /** The table of known activity codes. */
  const WORKOUT_DICT: map<string, TrainingClass> :=
    map["SWM" := SwimmingClass, "RUN" := RunningClass, "WLK" := SportsWalkingClass]

  /**
   * Why a package could not be read: the code is not in the table (a lookup
   * error), or the field list does not match the constructor (an argument error).
   */
  datatype Error =
    | UnknownType(code: string)
    | ArityMismatch(code: string, expected: nat, given: nat)

  /** Number of positional fields the class's constructor takes. */
  function Arity(c: TrainingClass): (n: nat)
    ensures n >= 3
    ensures n == 3 <==> c == RunningClass
    ensures n == 4 <==> c == SportsWalkingClass
    ensures n == 5 <==> c == SwimmingClass
  {
    match c
    case SwimmingClass => 5
    case RunningClass => 3
    case SportsWalkingClass => 4
  }

  /** The class a session was built from. */
  function ClassOf(w: Workout): (c: TrainingClass)
  {
    match w
    case Running(_, _, _) => RunningClass
    case SportsWalking(_, _, _, _) => SportsWalkingClass
    case Swimming(_, _, _, _, _) => SwimmingClass
  }

  /** The constructor arguments of a session, in their positional order. */
  function Fields(w: Workout): (r: seq<real>)
    ensures |r| == Arity(ClassOf(w))
    ensures r[0] == w.action && r[1] == w.duration && r[2] == w.weight
  {
    match w
    case Running(action, duration, weight) => [action, duration, weight]
    case SportsWalking(action, duration, weight, height) => [action, duration, weight, height]
    case Swimming(action, duration, weight, lengthPool, countPool) =>
      [action, duration, weight, lengthPool, countPool]
  }

  /** Calls the class's constructor with the fields spread positionally. */
  function Construct(c: TrainingClass, data: seq<real>): (w: Workout)
    requires |data| == Arity(c)
    ensures ClassOf(w) == c && Fields(w) == data
  {
    match c
    case SwimmingClass => Swimming(data[0], data[1], data[2], data[3], data[4])
    case RunningClass => Running(data[0], data[1], data[2])
    case SportsWalkingClass => SportsWalking(data[0], data[1], data[2], data[3])
  }

  /**
   * Reads one sensor package: looks the code up in the table first, then
   * builds the session from the data, failing when the number of fields does
   * not match the constructor.
   */
  function ReadPackage(code: string, data: seq<real>): (r: Result<Workout, Error>)
    ensures code !in WORKOUT_DICT ==> r == Err(UnknownType(code))
    ensures code in WORKOUT_DICT && |data| != Arity(WORKOUT_DICT[code]) ==>
              r == Err(ArityMismatch(code, Arity(WORKOUT_DICT[code]), |data|))
    ensures r.Ok? <==> code in WORKOUT_DICT && |data| == Arity(WORKOUT_DICT[code])
    ensures r.Ok? ==> ClassOf(r.value) == WORKOUT_DICT[code] && Fields(r.value) == data
  {
    if code !in WORKOUT_DICT then
      Err(UnknownType(code))
    else
      var c := WORKOUT_DICT[code];
      if |data| != Arity(c) then Err(ArityMismatch(code, Arity(c), |data|))
      else Ok(Construct(c, data))
  }

  /** The code the table maps to a class. */
  function CodeOf(c: TrainingClass): (code: string)
    ensures code in WORKOUT_DICT && WORKOUT_DICT[code] == c
  {
    match c
    case SwimmingClass => "SWM"
    case RunningClass => "RUN"
    case SportsWalkingClass => "WLK"
  }

  // ---------------------------------------------------------------------------
  // Properties of the dispatcher
  // ---------------------------------------------------------------------------

  /** The table holds exactly the three codes, and each class has exactly one code. */
  lemma TableIsBijective(code: string, c: TrainingClass)
    ensures code in WORKOUT_DICT <==> code == "SWM" || code == "RUN" || code == "WLK"
    ensures code in WORKOUT_DICT ==> (WORKOUT_DICT[code] == c <==> code == CodeOf(c))
  {
  }

  /** A session is determined by its class and its positional fields. */
  lemma {:induction false} ConstructOfFields(w: Workout)
    ensures Construct(ClassOf(w), Fields(w)) == w
  {
    match w
    case Running(_, _, _) =>
    case SportsWalking(_, _, _, _) =>
    case Swimming(_, _, _, _, _) =>
  }

  /** Every session can be read back from its code and its field list. */
  lemma ReadPackageRoundTrip(w: Workout)
    ensures ReadPackage(CodeOf(ClassOf(w)), Fields(w)) == Ok(w)
  {
    ConstructOfFields(w);
  }

  /** Two packages that read to the same session had the same code and the same data. */
  lemma ReadPackageInjective(code1: string, data1: seq<real>, code2: string, data2: seq<real>)
    requires ReadPackage(code1, data1).Ok? && ReadPackage(code2, data2).Ok?
    requires ReadPackage(code1, data1).value == ReadPackage(code2, data2).value
    ensures code1 == code2 && data1 == data2
  {
    TableIsBijective(code1, WORKOUT_DICT[code1]);
    TableIsBijective(code2, WORKOUT_DICT[code2]);
  }

  /** Each code builds its own variant from the fields in order. */
  lemma ReadPackagePositional(a: real, d: real, m: real, x: real, y: real)
    ensures ReadPackage("SWM", [a, d, m, x, y]) == Ok(Swimming(a, d, m, x, y))
    ensures ReadPackage("RUN", [a, d, m]) == Ok(Running(a, d, m))
    ensures ReadPackage("WLK", [a, d, m, x]) == Ok(SportsWalking(a, d, m, x))
  {
  }

}
