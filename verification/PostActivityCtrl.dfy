/**
  The client-side controller behind the "log your run" form: it turns the
  hours, minutes and seconds typed in into a number of seconds, flags a
  negative duration, guards the submission, bounds the date picker by the
  goal's dates and greys out weekends.

  Dates are whole day numbers counted from 1970-01-01 (a Thursday); the
  duration fields are already parsed into numbers.
 */
module PostActivity {
  import opened Domain

  /** One duration field as typed: left empty, the literal "00", or a number. */
  datatype Part = Empty | DoubleZero | Entered(n: int)

  datatype Duration = Duration(hours: Part, minutes: Part, seconds: Part)

  /** An activity posted to the server for a goal. */
  datatype ActivityRequest = ActivityRequest(goalId: GoalId, duration: int)

  /** An empty field and "00" both count as zero. */
  function PartValue(p: Part): int
  {
    if p.Entered? then p.n else 0
  }

  /**
    The duration in seconds; no duration at all counts as zero. The
    controller holds two identical copies of this conversion, one local to
    the controller and one at file level.
   */
  function ToAppSeconds(duration: Option<Duration>): (r: int)
    ensures duration.None? ==> r == 0
    ensures duration.Some? ==>
      r == PartValue(duration.value.hours) * 3600 + PartValue(duration.value.minutes) * 60
           + PartValue(duration.value.seconds)
  {
    if duration.Some? then
      var d := duration.value;
      PartValue(d.hours) * 60 * 60 + PartValue(d.minutes) * 60 + PartValue(d.seconds)
    else 0
  }

  /**
    A field left empty or typed as "00" adds nothing: the total is the one
    with that field entered as 0, and a duration with every field blank
    comes to no time at all, like no duration.
   */
  lemma BlankFieldCountsAsZero(d: Duration, blank: Part)
    requires blank == Empty || blank == DoubleZero
    ensures ToAppSeconds(Some(d.(hours := blank))) == ToAppSeconds(Some(d.(hours := Entered(0))))
    ensures ToAppSeconds(Some(d.(minutes := blank))) == ToAppSeconds(Some(d.(minutes := Entered(0))))
    ensures ToAppSeconds(Some(d.(seconds := blank))) == ToAppSeconds(Some(d.(seconds := Entered(0))))
    ensures ToAppSeconds(Some(Duration(blank, blank, blank))) == ToAppSeconds(None) == 0
  {
  }

  predicate NonNegative(p: Part)
  {
    p.Entered? ==> p.n >= 0
  }

  /** A duration whose fields are all non-negative is never flagged as invalid. */
  lemma NonNegativeDurationIsValid(duration: Option<Duration>)
    requires duration.Some? ==>
      NonNegative(duration.value.hours) && NonNegative(duration.value.minutes) && NonNegative(duration.value.seconds)
    ensures ToAppSeconds(duration) >= 0
  {
  }

  /**
    Seconds read back as hours, minutes and seconds: a clock-style duration
    (minutes and seconds below 60) is recovered from its total.
   */
  lemma {:induction false} ToAppSecondsRoundTrip(h: nat, m: nat, s: nat)
    requires m < 60 && s < 60
    ensures var r := ToAppSeconds(Some(Duration(Entered(h), Entered(m), Entered(s))));
      && r / 3600 == h
      && (r % 3600) / 60 == m
      && r % 60 == s
  {
    var r := h * 3600 + m * 60 + s;
    assert r == ToAppSeconds(Some(Duration(Entered(h), Entered(m), Entered(s))));
    assert 0 <= m * 60 + s < 3600;
    assert r / 3600 == h && r % 3600 == m * 60 + s by {
      DivisionUnique(r, 3600, h, m * 60 + s);
    }
    assert (m * 60 + s) / 60 == m && (m * 60 + s) % 60 == s by {
      DivisionUnique(m * 60 + s, 60, m, s);
    }
    assert r % 60 == s by {
      assert r == (h * 60 + m) * 60 + s;
      DivisionUnique(r, 60, h * 60 + m, s);
    }
  }

  /** Quotient and remainder are the unique pair that decomposes the dividend. */
  lemma DivisionUnique(n: int, b: int, q: int, rem: int)
    requires b > 0 && 0 <= rem < b && n == q * b + rem
    ensures n / b == q && n % b == rem
  {
    DivBounds(n, b);
    var d := n / b - q;
    assert d * b == (n / b) * b - q * b;
    if d >= 1 {
      MulMono(1, d, b);
    } else if d <= -1 {
      MulMono(d, -1, b);
    }
    assert n == b * (n / b) + n % b;
  }

  lemma MulMono(a: int, c: int, b: int)
    requires a <= c && b > 0
    ensures a * b <= c * b
  {
    assert c * b - a * b == (c - a) * b;
  }

  /** Whether the form would be submitted: the flag checked is recomputed for a distance goal only. */
  function Submits(formValid: bool, durationInvalid: bool, goalType: GoalType, duration: Option<Duration>): bool
  {
    formValid && !(if goalType == DistanceGoal then ToAppSeconds(duration) < 0 else durationInvalid)
  }

  /**
    For a distance goal with non-negative fields, a valid form is always
    submitted, whatever the duration flag said before.
   */
  lemma DistanceGoalSubmitsValidForm(formValid: bool, durationInvalid: bool, duration: Option<Duration>)
    requires duration.Some? ==>
      NonNegative(duration.value.hours) && NonNegative(duration.value.minutes) && NonNegative(duration.value.seconds)
    ensures Submits(formValid, durationInvalid, DistanceGoal, duration) == formValid
  {
    NonNegativeDurationIsValid(duration);
  }

  /** For other goals a stale invalid-duration flag blocks the submission. */
  lemma StaleFlagBlocksOtherGoals(goalType: GoalType, duration: Option<Duration>)
    requires goalType != DistanceGoal
    ensures !Submits(true, true, goalType, duration)
  {
  }

  /** The latest day the picker offers: today, or the goal's end date when that is earlier. */
  function MaxDate(endDate: Option<int>, today: int): (r: int)
    ensures r <= today
    ensures endDate.Some? ==> r <= endDate.value && (r == endDate.value || r == today)
    ensures endDate.None? ==> r == today
  {
    if endDate.Some? then (if endDate.value > today then today else endDate.value) else today
  }

  /** The day of the week, Sunday being 0. */
  function Weekday(day: int): (w: int)
    ensures 0 <= w < 7
  {
    (day + 4) % 7
  }

  /**
    The calendar is anchored: day 0 (1970-01-01) is a Thursday, and the
    Sundays and Saturdays are exactly the days 3 and 2 past a multiple of seven
    (1970-01-04 was a Sunday, 1970-01-03 a Saturday).
   */
  lemma WeekdayAnchor(day: int)
    ensures Weekday(0) == 4
    ensures Weekday(day) == 0 <==> (day - 3) % 7 == 0
    ensures Weekday(day) == 6 <==> (day - 2) % 7 == 0
  {
    var q, r := (day - 3) / 7, (day - 3) % 7;
    DivBounds(day - 3, 7);
    DivisionUnique(day + 4, 7, q + 1, r);
    var q2, r2 := (day - 2) / 7, (day - 2) % 7;
    DivBounds(day - 2, 7);
    if r2 == 0 {
      DivisionUnique(day + 4, 7, q2, 6);
    } else {
      DivisionUnique(day + 4, 7, q2 + 1, r2 - 1);
    }
  }

  /** The picker greys out Saturdays and Sundays, and only in day mode. */
  function Disabled(day: int, mode: string): bool
  {
    mode == "day" && (Weekday(day) == 0 || Weekday(day) == 6)
  }

  /** Which days are greyed out repeats every week. */
  lemma DisabledWeekly(day: int, mode: string)
    ensures Disabled(day + 7, mode) == Disabled(day, mode)
  {
    assert (day + 7 + 4) % 7 == (day + 4) % 7;
  }

  /** The day after a Saturday is a Sunday; any other day is followed by the next weekday. */
  lemma WeekdayNext(day: int)
    ensures Weekday(day + 1) == if Weekday(day) == 6 then 0 else Weekday(day) + 1
  {
    var q, r := (day + 4) / 7, (day + 4) % 7;
    DivBounds(day + 4, 7);
    assert day + 4 == q * 7 + r;
    if r < 6 {
      DivisionUnique(day + 5, 7, q, r + 1);
    } else {
      DivisionUnique(day + 5, 7, q + 1, 0);
    }
  }

  /** Two days in a row are greyed out exactly when the first is a Saturday; never three. */
  lemma {:induction false} WeekendIsTwoDays(day: int)
    ensures Disabled(day, "day") && Disabled(day + 1, "day") <==> Weekday(day) == 6
    ensures !(Disabled(day, "day") && Disabled(day + 1, "day") && Disabled(day + 2, "day"))
  {
    WeekdayNext(day);
    WeekdayNext(day + 1);
  }

  class PostActivityCtrl {
    /** The invalid flag of the duration field. */
    var durationInvalid: bool
    var submitted: bool
    var successfulSubmission: bool
    var buttonText: string
    /** The duration in seconds carried by the activity being posted. */
    var activityDuration: Option<int>
    /** The activities handed to the server, in order. */
    var requests: seq<ActivityRequest>
    /** The earliest and latest days the date picker offers. */
    var minDate: Option<int>
    var maxDate: int

    /** Sets up the form; the date picker is bounded by the goal's dates at once. */
    constructor(startDate: Option<int>, endDate: Option<int>, today: int)
      ensures buttonText == "Log your Run"
      ensures !submitted && !successfulSubmission && !durationInvalid
      ensures activityDuration.None? && requests == []
      ensures minDate == startDate && maxDate == MaxDate(endDate, today)
    {
      buttonText := "Log your Run";
      durationInvalid := false;
      submitted, successfulSubmission := false, false;
      activityDuration := None;
      requests := [];
      minDate := startDate;
      maxDate := MaxDate(endDate, today);
    }

    /** Flags the duration as invalid exactly when it comes to a negative number of seconds. */
    method ValidateDuration(duration: Option<Duration>)
      modifies this`durationInvalid
      ensures durationInvalid <==> ToAppSeconds(duration) < 0
    {
      var durationVal := ToAppSeconds(duration);
      if durationVal >= 0 {
        durationInvalid := false;
      } else {
        durationInvalid := true;
      }
    }

    /**
      Marks the form submitted, revalidates the duration for a distance
      goal, and, when the form's own validators pass (`formValid`) and the
      duration is not flagged, posts the activity with its duration in seconds.
     */
    method PostActivity(goalId: GoalId, goalType: GoalType, duration: Option<Duration>, formValid: bool)
      modifies this
      ensures submitted
      ensures durationInvalid == if goalType == DistanceGoal then ToAppSeconds(duration) < 0 else old(durationInvalid)
      ensures Submits(formValid, old(durationInvalid), goalType, duration) ==>
        && successfulSubmission
        && buttonText == "Logging your run.."
        && activityDuration == Some(ToAppSeconds(duration))
        && requests == old(requests) + [ActivityRequest(goalId, ToAppSeconds(duration))]
      ensures !Submits(formValid, old(durationInvalid), goalType, duration) ==>
        && successfulSubmission == old(successfulSubmission)
        && buttonText == old(buttonText)
        && activityDuration == old(activityDuration)
        && requests == old(requests)
      ensures minDate == old(minDate) && maxDate == old(maxDate)
    {
      submitted := true;
      if goalType == DistanceGoal {
        ValidateDuration(duration);
      }
      if formValid && !durationInvalid {
        successfulSubmission := true;
        buttonText := "Logging your run..";
        var seconds := ToAppSeconds(duration);
        activityDuration := Some(seconds);
        requests := requests + [ActivityRequest(goalId, seconds)];
      }
    }

    /** Bounds the date picker: from the goal's start, up to today or the goal's end if earlier. */
    method ToggleMin(startDate: Option<int>, endDate: Option<int>, today: int)
      modifies this`minDate, this`maxDate
      ensures minDate == startDate
      ensures maxDate == MaxDate(endDate, today)
    {
      minDate := startDate;
      var current := today;
      if endDate.Some? {
        maxDate := if endDate.value > current then current else endDate.value;
      } else {
        maxDate := current;
      }
    }
  }
}
