/**
  The client-side controller behind the "create goal" pages: it keeps a
  goal's end date and its number of days in step, checks that a duration
  goal's start date comes before its end date, routes to the page of the
  chosen goal type and shapes the goal sent to the server.

  Dates are whole day numbers.
 */
module CreateGoal {
  import opened Domain

  /** The goal being edited, as posted to the server. */
  datatype GoalDraft = GoalDraft(
    goalUnit: string,
    numberOfDays: Option<int>,
    startDate: int,
    endDate: int,
    purpose: string,
    goalType: Option<string>)

  const DistanceGoalRoute := "/goals/create_distance_goal"
  const DurationGoalRoute := "/goals/create_duration_goal"

  /** The last day of a span of `days` days starting on `start` (the start counts as day one). */
  function AddDays(start: int, days: int): int
  {
    start + (days - 1)
  }

  /** The number of days from `start` to `end`, counting both. */
  function DayCount(start: int, end: int): int
  {
    end - start + 1
  }

  /** A one-day span ends on the day it starts. */
  lemma OneDaySpan(start: int)
    ensures AddDays(start, 1) == start
  {
  }

  /** Counting the days of a span gives back its length. */
  lemma DayCountOfAddDays(start: int, days: int)
    ensures DayCount(start, AddDays(start, days)) == days
  {
  }

  /** The span as long as the days counted ends on the end date. */
  lemma AddDaysOfDayCount(start: int, end: int)
    ensures AddDays(start, DayCount(start, end)) == end
  {
  }

  /** The page for the chosen goal type: the duration page for "duration_goal", the distance page otherwise. */
  function RouteFor(goalType: string): (route: string)
    ensures route == DurationGoalRoute <==> goalType == "duration_goal"
    ensures route == DistanceGoalRoute <==> goalType != "duration_goal"
  {
    if goalType == "distance_goal" then DistanceGoalRoute
    else if goalType == "duration_goal" then DurationGoalRoute
    else DistanceGoalRoute
  }

  class CreateGoalCtrl {
    var goal: GoalDraft
    var buttonText: string
    var submitted: bool
    var successfulSubmission: bool
    /** The invalid flag of the start-date field. */
    var startDateInvalid: bool
    /** The page navigated to. */
    var path: string
    /** The goals posted to the server, in order. */
    var requests: seq<GoalDraft>

    /** A ten-day goal in miles starting today. */
    constructor(today: int)
      ensures goal == GoalDraft("MI", Some(10), today, today + 9, "Run for 10 days", None)
      ensures buttonText == "Create"
      ensures !submitted && !successfulSubmission && !startDateInvalid
      ensures path == "" && requests == []
    {
      goal := GoalDraft("MI", Some(10), today, AddDays(today, 10), "Run for 10 days", None);
      buttonText := "Create";
      submitted, successfulSubmission, startDateInvalid := false, false, false;
      path := "";
      requests := [];
    }

    method RenderNextView(goalType: string)
      modifies this`path
      ensures path == RouteFor(goalType)
    {
      if goalType == "distance_goal" {
        path := DistanceGoalRoute;
      } else if goalType == "duration_goal" {
        path := DurationGoalRoute;
      } else {
        path := DistanceGoalRoute;
      }
    }

    /**
      The number of days was edited: a non-zero number moves the end date
      so that the span from the start date has that many days.
     */
    method NumberOfDaysUpdated(numberOfDays: Option<int>)
      modifies this`goal
      ensures numberOfDays.Some? && numberOfDays.value != 0 ==>
        && goal == old(goal).(numberOfDays := numberOfDays, endDate := AddDays(old(goal).startDate, numberOfDays.value))
        && DayCount(goal.startDate, goal.endDate) == numberOfDays.value
      ensures !(numberOfDays.Some? && numberOfDays.value != 0) ==> goal == old(goal).(numberOfDays := numberOfDays)
    {
      goal := goal.(numberOfDays := numberOfDays);
      if numberOfDays.Some? && numberOfDays.value != 0 {
        goal := goal.(endDate := AddDays(goal.startDate, numberOfDays.value));
        DayCountOfAddDays(goal.startDate, numberOfDays.value);
      }
    }

    /** The start date was picked: the number of days is recounted. */
    method StartDateUpdated(startDate: int)
      modifies this`goal
      ensures goal == old(goal).(startDate := startDate, numberOfDays := Some(DayCount(startDate, old(goal).endDate)))
      ensures AddDays(goal.startDate, goal.numberOfDays.value) == goal.endDate
    {
      goal := goal.(startDate := startDate);
      goal := goal.(numberOfDays := Some(DayCount(goal.startDate, goal.endDate)));
      AddDaysOfDayCount(goal.startDate, goal.endDate);
    }

    /** The end date was picked: the number of days is recounted. */
    method EndDateUpdated(endDate: int)
      modifies this`goal
      ensures goal == old(goal).(endDate := endDate, numberOfDays := Some(DayCount(old(goal).startDate, endDate)))
      ensures AddDays(goal.startDate, goal.numberOfDays.value) == goal.endDate
    {
      goal := goal.(endDate := endDate);
      goal := goal.(numberOfDays := Some(DayCount(goal.startDate, goal.endDate)));
      AddDaysOfDayCount(goal.startDate, goal.endDate);
    }

    /**
      Entering a number of days and then recounting from the dates, the end
      date picked unchanged, gives back the number entered.
     */
    method NumberOfDaysRoundTrip(numberOfDays: int)
      requires numberOfDays != 0
      modifies this`goal
      ensures goal.numberOfDays == Some(numberOfDays)
      ensures goal.startDate == old(goal).startDate
    {
      NumberOfDaysUpdated(Some(numberOfDays));
      EndDateUpdated(goal.endDate);
    }

    /**
      With both dates present, the start date is flagged as invalid exactly
      when it is not before the end date; otherwise the flag is left alone.
     */
    method ValidateDateRange(startDate: Option<int>, endDate: Option<int>)
      modifies this`startDateInvalid
      ensures startDate.Some? && endDate.Some? ==> (startDateInvalid <==> startDate.value >= endDate.value)
      ensures !(startDate.Some? && endDate.Some?) ==> startDateInvalid == old(startDateInvalid)
    {
      if startDate.Some? && endDate.Some? {
        if startDate.value < endDate.value {
          startDateInvalid := false;
        } else {
          startDateInvalid := true;
        }
      }
    }

    /** Posts the goal as a goal of the given type, without its number of days. */
    method PostGoal(goalType: string)
      modifies this`successfulSubmission, this`buttonText, this`goal, this`requests
      ensures successfulSubmission && buttonText == "Creating Goal.."
      ensures goal == old(goal).(goalType := Some(goalType), numberOfDays := None)
      ensures requests == old(requests) + [goal]
    {
      successfulSubmission := true;
      buttonText := "Creating Goal..";
      goal := goal.(goalType := Some(goalType));
      goal := goal.(numberOfDays := None);
      requests := requests + [goal];
    }

    /** Submits a distance goal when the form's own validators pass (`formValid`). */
    method CreateDistanceGoal(formValid: bool)
      modifies this
      ensures submitted
      ensures formValid ==>
        && successfulSubmission && buttonText == "Creating Goal.."
        && goal == old(goal).(goalType := Some("DISTANCE_GOAL"), numberOfDays := None)
        && requests == old(requests) + [goal]
      ensures !formValid ==>
        && successfulSubmission == old(successfulSubmission) && buttonText == old(buttonText)
        && goal == old(goal) && requests == old(requests)
      ensures startDateInvalid == old(startDateInvalid) && path == old(path)
    {
      submitted := true;
      if formValid {
        PostGoal("DISTANCE_GOAL");
      }
    }

    /**
      Submits a duration goal when the form's validators pass and the start
      date comes before the end date.
     */
    method CreateDurationGoal(formValid: bool)
      modifies this
      ensures submitted
      ensures startDateInvalid <==> old(goal).startDate >= old(goal).endDate
      ensures formValid && old(goal).startDate < old(goal).endDate ==>
        && successfulSubmission && buttonText == "Creating Goal.."
        && goal == old(goal).(goalType := Some("DURATION_GOAL"), numberOfDays := None)
        && requests == old(requests) + [goal]
      ensures !(formValid && old(goal).startDate < old(goal).endDate) ==>
        && successfulSubmission == old(successfulSubmission) && buttonText == old(buttonText)
        && goal == old(goal) && requests == old(requests)
      ensures path == old(path)
    {
      submitted := true;
      ValidateDateRange(Some(goal.startDate), Some(goal.endDate));
      if formValid && !startDateInvalid {
        PostGoal("DURATION_GOAL");
      }
    }
  }
}
