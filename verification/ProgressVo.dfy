/**
  The progress value object: a goal's target and covered distance in the
  goal's display unit, the percentage reached, the activity count, the
  total duration in seconds and whole minutes, and the average pace.
 */
module ProgressVo {
  import opened Domain

  datatype Progress = Progress(
    goalUnit: Option<GoalUnit>,
    goal: int,
    totalDistanceCovered: int,
    percentage: int,
    activityCount: int,
    totalDurationInSecs: int,
    totalDurationInMins: int,
    averagePace: real)

  /** Multiplying by a positive factor keeps strict order, both ways. */
  lemma ScaleOrder(a: int, b: int, g: int)
    requires g > 0
    ensures a < b <==> a * g < b * g
  {
  }

  /** A floored percentage is below 100 exactly when the distance is below the goal. */
  lemma FloorBelowHundred(goal: int, distance: int)
    requires goal != 0
    ensures goal > 0 ==> (FloorDiv(100 * distance, goal) < 100 <==> distance < goal)
    ensures goal > 0 && distance >= 0 ==> FloorDiv(100 * distance, goal) >= 0
    ensures goal < 0 ==> (FloorDiv(100 * distance, goal) < 100 <==> distance > goal)
  {
    if goal < 0 {
      FloorBelowHundredNegative(goal, distance);
    }
    if goal > 0 {
      var f := FloorDiv(100 * distance, goal);
      ScaleOrder(f, 100, goal);
      ScaleOrder(100, f + 1, goal);
      ScaleOrder(-1, f, goal);
      assert (f + 1) * goal == f * goal + goal;
    }
  }

  /** With a negative goal the floored percentage is below 100 exactly when the distance is above the goal. */
  lemma FloorBelowHundredNegative(goal: int, distance: int)
    requires goal < 0
    ensures FloorDiv(100 * distance, goal) < 100 <==> distance > goal
  {
    var f := FloorDiv(100 * distance, goal);
    var g := -goal;
    assert f * g <= -100 * distance < f * g + g;
    ScaleOrder(f, 100, g);
    ScaleOrder(100, f + 1, g);
    assert (f + 1) * g == f * g + g;
  }

  /**
    The percentage of the raw goal that the raw distance covers: the floor
    of 100 * distance / goal, capped at 100, and 0 for a zero goal.
   */
  function Percentage(goal: int, distance: int): (p: int)
    ensures goal == 0 ==> p == 0
    ensures p <= 100
    ensures goal > 0 ==> (p == 100 <==> distance >= goal)
    ensures goal > 0 && distance < goal ==> p * goal <= 100 * distance < p * goal + goal
    ensures goal > 0 && distance >= 0 ==> 0 <= p
    ensures goal < 0 ==> (p == 100 <==> distance <= goal)
    ensures goal < 0 && distance > goal ==> p * goal >= 100 * distance > p * goal + goal
  {
    if goal == 0 then 0
    else
      var f := FloorDiv(100 * distance, goal);
      FloorBelowHundred(goal, distance);
      if f > 100 then 100 else f
  }

  /**
    The five-argument constructor: converts the raw goal and raw distance
    into the unit by integer division, takes the percentage from the raw
    (unconverted) values, and computes minutes and pace.
   */
  function NewProgress(goal: int, goalUnit: GoalUnit, totalDistanceCovered: int,
                       activityCount: int, totalDurationInSecs: int): (r: Progress)
    ensures r.goalUnit == Some(goalUnit)
    ensures goal >= 0 ==>
      0 <= r.goal * goalUnit.conversion <= goal < r.goal * goalUnit.conversion + goalUnit.conversion
    ensures totalDistanceCovered >= 0 ==>
      0 <= r.totalDistanceCovered * goalUnit.conversion <= totalDistanceCovered
        < r.totalDistanceCovered * goalUnit.conversion + goalUnit.conversion
    ensures goal < 0 ==>
      r.goal * goalUnit.conversion - goalUnit.conversion < goal <= r.goal * goalUnit.conversion <= 0
    ensures totalDistanceCovered < 0 ==>
      r.totalDistanceCovered * goalUnit.conversion - goalUnit.conversion < totalDistanceCovered
        <= r.totalDistanceCovered * goalUnit.conversion <= 0
    ensures r.percentage == Percentage(goal, totalDistanceCovered)
    ensures r.activityCount == activityCount
    ensures r.totalDurationInSecs == totalDurationInSecs
    ensures totalDurationInSecs >= 0 ==>
      0 <= r.totalDurationInMins * 60 <= totalDurationInSecs < r.totalDurationInMins * 60 + 60
    ensures totalDurationInSecs < 0 ==>
      r.totalDurationInMins * 60 - 60 < totalDurationInSecs <= r.totalDurationInMins * 60 <= 0
    ensures r.totalDistanceCovered == 0 ==> r.averagePace == 0.0
    ensures r.totalDistanceCovered != 0 ==>
      r.averagePace * (r.totalDistanceCovered as real) == r.totalDurationInMins as real
  {
    var c := goalUnit.conversion;
    var distance := TruncDiv(totalDistanceCovered, c);
    var mins := TruncDiv(totalDurationInSecs, 60);
    Progress(
      Some(goalUnit),
      TruncDiv(goal, c),
      distance,
      Percentage(goal, totalDistanceCovered),
      activityCount,
      totalDurationInSecs,
      mins,
      if distance != 0 then (mins as real) / (distance as real) else 0.0)
  }

  /** A raw distance shorter than one unit converts to zero, so no pace is computed. */
  lemma ShortDistanceHasNoPace(goal: int, goalUnit: GoalUnit, totalDistanceCovered: int,
                               activityCount: int, totalDurationInSecs: int)
    requires 0 <= totalDistanceCovered < goalUnit.conversion
    ensures NewProgress(goal, goalUnit, totalDistanceCovered, activityCount, totalDurationInSecs).averagePace == 0.0
  {
    var r := NewProgress(goal, goalUnit, totalDistanceCovered, activityCount, totalDurationInSecs);
    ScaleOrder(r.totalDistanceCovered, 1, goalUnit.conversion);
  }

  /** The no-argument constructor: everything zero and no unit. */
  function DefaultProgress(): (r: Progress)
    ensures r.goalUnit == None
    ensures r.goal == 0 && r.totalDistanceCovered == 0 && r.percentage == 0 && r.activityCount == 0
  {
    Progress(None, 0, 0, 0, 0, 0, 0, 0.0)
  }

  /** The constructor from a profile's goal preference, before any activity. */
  function ProfileProgress(profileGoal: int, goalUnit: GoalUnit): (r: Progress)
    ensures r.goalUnit == Some(goalUnit)
    ensures profileGoal >= 0 ==>
      0 <= r.goal * goalUnit.conversion <= profileGoal < r.goal * goalUnit.conversion + goalUnit.conversion
    ensures profileGoal < 0 ==>
      r.goal * goalUnit.conversion - goalUnit.conversion < profileGoal <= r.goal * goalUnit.conversion <= 0
    ensures r.percentage == 0 && r.averagePace == 0.0
    ensures r.totalDistanceCovered == 0 && r.activityCount == 0
  {
    Progress(Some(goalUnit), TruncDiv(profileGoal, goalUnit.conversion), 0, 0, 0, 0, 0, 0.0)
  }

  /** A profile's progress is the progress of its goal with no activity logged yet. */
  lemma ProfileProgressIsEmptyProgress(profileGoal: int, goalUnit: GoalUnit)
    ensures ProfileProgress(profileGoal, goalUnit) == NewProgress(profileGoal, goalUnit, 0, 0, 0)
  {
    assert TruncDiv(0, goalUnit.conversion) == 0;
    assert TruncDiv(0, 60) == 0;
    assert Percentage(profileGoal, 0) == 0;
  }

  /** The default progress agrees with an empty zero goal in every field but the unit. */
  lemma DefaultProgressIsEmptyZeroGoal(goalUnit: GoalUnit)
    ensures DefaultProgress() == NewProgress(0, goalUnit, 0, 0, 0).(goalUnit := None)
  {
  }
}
