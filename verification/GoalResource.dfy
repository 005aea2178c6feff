/**
  The goal resource: listing a user's goals (optionally grouped by goal
  type), creating, updating and archiving goals, and answering a goal's
  progress.
 */
module Goals {
  import opened Domain
  import opened ProgressVo

  /** A goal together with the distance covered for it so far. */
  datatype GoalDetails = GoalDetails(goal: Goal, distanceCovered: real)

  /** What listing the goals answers: the flat list, or one list per goal type. */
  datatype GoalListing = Flat(goals: seq<Goal>) | Grouped(byType: map<GoalType, seq<GoalDetails>>)

  /** A value in a duration goal's progress breakdown. */
  datatype Value = Number(n: int) | UnitValue(unit: Option<GoalUnit>) | Text(text: string)

  /** What asking for a goal's progress answers. */
  datatype ProgressResponse =
    | ProgressNotFound
    | DistanceProgress(progress: Progress)
    | DurationProgress(breakdown: map<string, Value>)

  /** Each goal with the distance the counters hold for it. */
  function Details(goals: seq<Goal>, distances: map<GoalId, real>): seq<GoalDetails>
  {
    seq(|goals|, i requires 0 <= i < |goals| => GoalDetails(goals[i], ReadReal(distances, goals[i].id)))
  }

  function TypeOf(d: GoalDetails): GoalType
  {
    d.goal.goalType
  }

  /** The entries of type `t`, in their original order. */
  function OfType(ds: seq<GoalDetails>, t: GoalType): seq<GoalDetails>
    decreases |ds|
  {
    if ds == [] then []
    else
      var n := |ds| - 1;
      OfType(ds[..n], t) + (if TypeOf(ds[n]) == t then [ds[n]] else [])
  }

  /** The goal types present. */
  function TypesOf(ds: seq<GoalDetails>): set<GoalType>
  {
    set i | 0 <= i < |ds| :: TypeOf(ds[i])
  }

  /** Reference definition of the grouping: for each type present, its entries in order. */
  function Grouping(ds: seq<GoalDetails>): map<GoalType, seq<GoalDetails>>
  {
    map t | t in TypesOf(ds) :: OfType(ds, t)
  }

  /** One more entry adds its type to the types present. */
  lemma TypesOfSnoc(ds: seq<GoalDetails>, d: GoalDetails)
    ensures TypesOf(ds + [d]) == TypesOf(ds) + {TypeOf(d)}
  {
    var ds' := ds + [d];
    forall t | t in TypesOf(ds') ensures t in TypesOf(ds) + {TypeOf(d)} {
      var i :| 0 <= i < |ds'| && TypeOf(ds'[i]) == t;
      if i < |ds| { assert ds'[i] == ds[i]; }
    }
    forall t | t in TypesOf(ds) ensures t in TypesOf(ds') {
      var i :| 0 <= i < |ds| && TypeOf(ds[i]) == t;
      assert ds'[i] == ds[i];
    }
    assert TypeOf(ds'[|ds|]) == TypeOf(d);
  }

  /** One more entry is appended to its own type's list, which is created when the type is new. */
  lemma {:induction false} GroupingSnoc(ds: seq<GoalDetails>, d: GoalDetails)
    ensures Grouping(ds + [d]) ==
      Grouping(ds)[TypeOf(d) := if TypeOf(d) in Grouping(ds) then Grouping(ds)[TypeOf(d)] + [d] else [d]]
  {
    var ds' := ds + [d];
    assert ds'[..|ds|] == ds;
    TypesOfSnoc(ds, d);
    var t0 := TypeOf(d);
    var g := Grouping(ds);
    var expected := g[t0 := if t0 in g then g[t0] + [d] else [d]];
    forall t | t in TypesOf(ds') ensures Grouping(ds')[t] == expected[t] {
      assert OfType(ds', t) == OfType(ds, t) + (if t0 == t then [d] else []);
      if t == t0 && t0 !in TypesOf(ds) {
        OfTypeAbsent(ds, t0);
      }
    }
    assert Grouping(ds').Keys == expected.Keys;
  }

  /** A type that is not present has no entries. */
  lemma {:induction false} OfTypeAbsent(ds: seq<GoalDetails>, t: GoalType)
    requires t !in TypesOf(ds)
    ensures OfType(ds, t) == []
    decreases |ds|
  {
    if ds != [] {
      var n := |ds| - 1;
      assert TypesOf(ds[..n]) <= TypesOf(ds) by {
        forall u | u in TypesOf(ds[..n]) ensures u in TypesOf(ds) {
          var i :| 0 <= i < n && TypeOf(ds[..n][i]) == u;
          assert ds[..n][i] == ds[i];
        }
      }
      assert TypeOf(ds[n]) in TypesOf(ds);
      OfTypeAbsent(ds[..n], t);
    }
  }

  /** Filtering by type distributes over concatenation, so relative order is kept. */
  lemma {:induction false} OfTypeAppend(a: seq<GoalDetails>, b: seq<GoalDetails>, t: GoalType)
    ensures OfType(a + b, t) == OfType(a, t) + OfType(b, t)
    decreases |b|
  {
    if b == [] {
      assert a + b == a;
    } else {
      var n := |b| - 1;
      OfTypeAppend(a, b[..n], t);
      assert (a + b)[..|a + b| - 1] == a + b[..n];
      assert (a + b)[|a + b| - 1] == b[n];
    }
  }

  /** Every entry of a type's list has that type. */
  lemma {:induction false} OfTypeHasType(ds: seq<GoalDetails>, t: GoalType)
    ensures forall d :: d in OfType(ds, t) ==> TypeOf(d) == t && d in ds
    decreases |ds|
  {
    if ds != [] {
      var n := |ds| - 1;
      OfTypeHasType(ds[..n], t);
      assert ds == ds[..n] + [ds[n]];
    }
  }

  /** The three lists together hold every entry exactly as often as the input does. */
  lemma {:induction false} OfTypePartition(ds: seq<GoalDetails>)
    ensures multiset(OfType(ds, DistanceGoal)) + multiset(OfType(ds, DurationGoal))
            + multiset(OfType(ds, CommunityRunGoal)) == multiset(ds)
    decreases |ds|
  {
    if ds != [] {
      var n := |ds| - 1;
      var prefix, last := ds[..n], ds[n];
      OfTypePartition(prefix);
      var distance, duration, run :=
        OfType(prefix, DistanceGoal), OfType(prefix, DurationGoal), OfType(prefix, CommunityRunGoal);
      assert ds == prefix + [last];
      assert multiset(ds) == multiset(prefix) + multiset{last};
      match TypeOf(last)
      case DistanceGoal =>
        assert OfType(ds, DistanceGoal) == distance + [last];
        assert OfType(ds, DurationGoal) == duration + [];
        assert OfType(ds, CommunityRunGoal) == run + [];
      case DurationGoal =>
        assert OfType(ds, DistanceGoal) == distance + [];
        assert OfType(ds, DurationGoal) == duration + [last];
        assert OfType(ds, CommunityRunGoal) == run + [];
      case CommunityRunGoal =>
        assert OfType(ds, DistanceGoal) == distance + [];
        assert OfType(ds, DurationGoal) == duration + [];
        assert OfType(ds, CommunityRunGoal) == run + [last];
    }
  }

  /** Every goal lands in exactly one of the three lists. */
  lemma OfTypeCounts(ds: seq<GoalDetails>)
    ensures |OfType(ds, DistanceGoal)| + |OfType(ds, DurationGoal)| + |OfType(ds, CommunityRunGoal)| == |ds|
  {
    OfTypePartition(ds);
    assert |multiset(ds)| == |ds|;
  }

  /** Every entry is in its own type's list. */
  lemma {:induction false} OfTypeContains(ds: seq<GoalDetails>, i: nat)
    requires i < |ds|
    ensures ds[i] in OfType(ds, TypeOf(ds[i]))
    decreases |ds|
  {
    var n := |ds| - 1;
    if i < n {
      OfTypeContains(ds[..n], i);
      assert ds[..n][i] == ds[i];
    }
  }

  /** The grouping's keys are exactly the types present, and each list is that type's entries. */
  lemma GroupingShape(ds: seq<GoalDetails>)
    ensures forall t :: t in Grouping(ds) <==> exists i :: 0 <= i < |ds| && TypeOf(ds[i]) == t
    ensures forall t :: t in Grouping(ds) ==> Grouping(ds)[t] == OfType(ds, t) != []
  {
    forall t | t in Grouping(ds) ensures OfType(ds, t) != [] {
      var i :| 0 <= i < |ds| && TypeOf(ds[i]) == t;
      OfTypeContains(ds, i);
    }
  }

  /** Groups the goals by type, each with its covered distance, keeping the input order per type. */
  method GroupGoalsByType(goals: seq<Goal>, distances: map<GoalId, real>)
    returns (byType: map<GoalType, seq<GoalDetails>>)
    ensures byType == Grouping(Details(goals, distances))
  {
    ghost var ds := Details(goals, distances);
    byType := map[];
    for i := 0 to |goals|
      invariant byType == Grouping(ds[..i])
    {
      var goal := goals[i];
      var goalType := goal.goalType;
      var specific := GoalDetails(goal, ReadReal(distances, goal.id));
      assert ds[i] == specific;
      assert ds[..i + 1] == ds[..i] + [specific];
      GroupingSnoc(ds[..i], specific);
      if goalType in byType {
        byType := byType[goalType := byType[goalType] + [specific]];
      } else {
        byType := byType[goalType := [specific]];
      }
    }
    assert ds[..|goals|] == ds;
  }

  /** The user's goals with the given archive flag, in store order. */
  function OwnedGoals(goals: seq<Goal>, user: Username, archived: bool): seq<Goal>
    decreases |goals|
  {
    if goals == [] then []
    else
      var n := |goals| - 1;
      OwnedGoals(goals[..n], user, archived)
        + (if goals[n].owner == user && goals[n].archived == archived then [goals[n]] else [])
  }

  class GoalResource {
    /** The goal store; a goal's id is its position. */
    var goals: seq<Goal>

    ghost predicate Valid()
      reads this
    {
      forall i :: 0 <= i < |goals| ==> goals[i].id == i
    }

    /** The goal with this id, if the user owns it. */
    function FindGoal(user: Username, goalId: GoalId): Option<Goal>
      reads this
    {
      if goalId < |goals| && goals[goalId].owner == user then Some(goals[goalId]) else None
    }

    constructor()
      ensures Valid() && goals == []
    {
      goals := [];
    }

    /** Lists the user's goals, grouped by type only when grouping is asked for explicitly. */
    method AllGoal(user: Username, archived: bool, groupByType: Option<bool>, distances: map<GoalId, real>)
      returns (listing: GoalListing)
      ensures groupByType == Some(true) ==>
        listing == Grouped(Grouping(Details(OwnedGoals(goals, user, archived), distances)))
      ensures groupByType != Some(true) ==> listing == Flat(OwnedGoals(goals, user, archived))
    {
      var found := OwnedGoals(goals, user, archived);
      if groupByType.Some? && groupByType.value {
        var byType := GroupGoalsByType(found, distances);
        return Grouped(byType);
      }
      listing := Flat(found);
    }

    /**
      Stores a new goal for the user with its distance scaled into the
      canonical unit; a failure while saving answers 500 with its message.
     */
    method CreateGoal(user: Username, goal: Goal, failure: Option<string>) returns (status: Status)
      requires Valid()
      modifies this
      ensures Valid()
      ensures failure.Some? ==> status == InternalServerError(failure.value) && goals == old(goals)
      ensures failure.None? ==>
        var id := |old(goals)|;
        && status == Created(id)
        && goals == old(goals) + [goal.(id := id, owner := user, distance := goal.distance * goal.unit.conversion)]
    {
      var scaled := goal.(distance := goal.distance * goal.unit.conversion);
      if failure.Some? {
        return InternalServerError(failure.value);
      }
      var id := |goals|;
      goals := goals + [scaled.(id := id, owner := user)];
      status := Created(id);
    }

    /**
      Replaces a goal's submitted fields, its distance scaled into the
      canonical unit; only the goal's owner may do so.
     */
    method UpdateGoal(user: Username, goalId: GoalId, goal: Goal) returns (status: Status)
      requires Valid()
      modifies this
      ensures Valid()
      ensures goalId >= |old(goals)| ==> status == NotFound && goals == old(goals)
      ensures goalId < |old(goals)| && old(goals)[goalId].owner != user ==>
        status == Unauthorized && goals == old(goals)
      ensures goalId < |old(goals)| && old(goals)[goalId].owner == user ==>
        var existing := old(goals)[goalId];
        && status == Ok
        && goals == old(goals)[goalId := goal.(id := goalId, owner := existing.owner, archived := existing.archived,
                                             distance := goal.distance * goal.unit.conversion)]
    {
      if goalId >= |goals| {
        return NotFound;
      }
      var existing := goals[goalId];
      if user != existing.owner {
        return Unauthorized;
      }
      var scaled := goal.(distance := goal.distance * goal.unit.conversion);
      goals := goals[goalId := scaled.(id := goalId, owner := existing.owner, archived := existing.archived)];
      status := Ok;
    }

    /** Sets a goal's archive flag; a goal the user does not own is not found. */
    method ArchiveGoal(user: Username, goalId: GoalId, archived: bool) returns (status: Status)
      requires Valid()
      modifies this
      ensures Valid()
      ensures old(FindGoal(user, goalId)).None? ==> status == NotFound && goals == old(goals)
      ensures old(FindGoal(user, goalId)).Some? ==>
        status == Ok && goals == old(goals)[goalId := old(goals)[goalId].(archived := archived)]
    {
      var existing := FindGoal(user, goalId);
      if existing.None? {
        return NotFound;
      }
      goals := goals[goalId := existing.value.(archived := archived)];
      status := Ok;
    }

    /**
      A goal's progress: the computed progress itself for a distance goal;
      for any other goal, the duration breakdown with the activity count,
      the distance covered and the unit written over it.
     */
    method GoalProgress(user: Username, goalId: GoalId, progress: Progress, breakdown: map<string, Value>)
      returns (response: ProgressResponse)
      ensures FindGoal(user, goalId).None? ==> response == ProgressNotFound
      ensures FindGoal(user, goalId).Some? && FindGoal(user, goalId).value.goalType == DistanceGoal ==>
        response == DistanceProgress(progress)
      ensures FindGoal(user, goalId).Some? && FindGoal(user, goalId).value.goalType != DistanceGoal ==>
        && response.DurationProgress?
        && response.breakdown.Keys == breakdown.Keys + {"activityCount", "totalDistanceCovered", "goalUnit"}
        && response.breakdown["activityCount"] == Number(progress.activityCount)
        && response.breakdown["totalDistanceCovered"] == Number(progress.totalDistanceCovered)
        && response.breakdown["goalUnit"] == UnitValue(progress.goalUnit)
        && forall k :: k in breakdown && k !in {"activityCount", "totalDistanceCovered", "goalUnit"} ==>
             response.breakdown[k] == breakdown[k]
    {
      var goal := FindGoal(user, goalId);
      if goal.None? {
        return ProgressNotFound;
      }
      if goal.value.goalType == DistanceGoal {
        return DistanceProgress(progress);
      }
      var goalProgress := breakdown;
      goalProgress := goalProgress["activityCount" := Number(progress.activityCount)];
      goalProgress := goalProgress["totalDistanceCovered" := Number(progress.totalDistanceCovered)];
      goalProgress := goalProgress["goalUnit" := UnitValue(progress.goalUnit)];
      response := DurationProgress(goalProgress);
    }
  }
}
