/**
 * The three sample packages of the calculator, read and reported end to end
 * with exact arithmetic.
 */
module Samples {

  import opened Wrappers
  import opened Training
  import opened Dispatch
  import opened Report

  /** A swim of 720 paddles, 1 h, 80 kg, in a 25 m pool for 40 laps. */
  lemma SwimmingSample()
    ensures ReadPackage("SWM", [720.0, 1.0, 80.0, 25.0, 40.0])
         == Ok(Swimming(720.0, 1.0, 80.0, 25.0, 40.0))
    ensures ShowTrainingInfo(Swimming(720.0, 1.0, 80.0, 25.0, 40.0))
         == InfoMessage("Swimming", 1.0, 0.9936, 1.0, 336.0)
  {
  }

  /** A run of 15000 steps, 1 h, 75 kg. */
  lemma RunningSample()
    ensures ReadPackage("RUN", [15000.0, 1.0, 75.0]) == Ok(Running(15000.0, 1.0, 75.0))
    ensures ShowTrainingInfo(Running(15000.0, 1.0, 75.0))
         == InfoMessage("Running", 1.0, 9.75, 9.75, 699.75)
  {
  }

  /** A walk of 9000 steps, 1 h, 75 kg, 180 cm: the floor term is zero. */
  lemma WalkingSample()
    ensures ReadPackage("WLK", [9000.0, 1.0, 75.0, 180.0])
         == Ok(SportsWalking(9000.0, 1.0, 75.0, 180.0))
    ensures WalkQuotient(SportsWalking(9000.0, 1.0, 75.0, 180.0)) == 0
    ensures ShowTrainingInfo(SportsWalking(9000.0, 1.0, 75.0, 180.0))
         == InfoMessage("SportsWalking", 1.0, 5.85, 5.85, 157.5)
  {
    var w := SportsWalking(9000.0, 1.0, 75.0, 180.0);
    assert MeanSpeed(w) == 5.85;
    FloorDivBelowDivisor(Square(5.85), 180.0);
  }

  /** An unknown code fails with a lookup error, whatever the data. */
  lemma UnknownCodeSample(data: seq<real>)
    ensures ReadPackage("XYZ", data) == Err(UnknownType("XYZ"))
  {
  }

  /** A known code with the wrong number of fields fails with an argument error. */
  lemma WrongAritySample()
    ensures ReadPackage("RUN", [15000.0, 1.0]) == Err(ArityMismatch("RUN", 3, 2))
    ensures ReadPackage("SWM", [720.0, 1.0, 80.0]) == Err(ArityMismatch("SWM", 5, 3))
  {
  }

}
