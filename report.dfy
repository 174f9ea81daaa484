/**
 * The report snapshot: the record that gathers a session's class name, its
 * duration and its computed distance, mean speed and calories.
 */
module Report {

  import opened Training

  /** The five values of a training report. */
  datatype InfoMessage = InfoMessage(
    trainingType: string,
    duration: real,
    distance: real,
    speed: real,
    calories: real)

  /** The report of one session. */
  function ShowTrainingInfo(w: Workout): (m: InfoMessage)
    requires CaloriesDefined(w)
    ensures m.trainingType == ClassName(w) && m.duration == w.duration
    ensures m.distance == Distance(w) && m.speed == MeanSpeed(w) && m.calories == Calories(w)
  {
    InfoMessage(ClassName(w), w.duration, Distance(w), MeanSpeed(w), Calories(w))
  }

  /** The name in a report tells the variant of the session apart. */
  lemma ReportIdentifiesVariant(w1: Workout, w2: Workout)
    requires CaloriesDefined(w1) && CaloriesDefined(w2)
    ensures (ShowTrainingInfo(w1).trainingType == ShowTrainingInfo(w2).trainingType)
        <==> ((w1.Running? && w2.Running?)
              || (w1.SportsWalking? && w2.SportsWalking?)
              || (w1.Swimming? && w2.Swimming?))
  {
  }

  /** Changing the number of paddles of a swim changes its report only in the distance. */
  lemma SwimmingReportIgnoresAction(w: Workout, a: real)
    requires w.Swimming? && w.duration != 0.0
    ensures ShowTrainingInfo(WithAction(w, a))
         == ShowTrainingInfo(w).(distance := Distance(WithAction(w, a)))
  {
    SwimmingIgnoresAction(w, a);
  }

}
