/**
  The activity resource: posting, updating, deleting and sharing runs, and
  the bookkeeping that keeps the global counters, the per-goal totals and
  the community-run totals in step with the activity store.
 */
module Activities {
  import opened Domain

  /** A logged run: its goal, its poster, its distance in the canonical unit and its duration in seconds. */
  datatype Activity = Activity(goalId: GoalId, postedBy: Username, distanceCovered: real, duration: int)

  /** The requests made to the timeline service, in order. */
  datatype TimelineEvent =
    | Posted(id: ActivityId, goalId: GoalId)
    | Updated(id: ActivityId, goalId: GoalId)
    | Removed(id: ActivityId, goalId: GoalId)

  datatype SocialProvider = Twitter | Facebook | GooglePlus

  datatype SocialConnection = SocialConnection(provider: SocialProvider, handle: string)

  /** The networks the poster asked to share an activity on. */
  datatype Share = Share(twitter: bool, facebook: bool, googlePlus: bool)

  /** One status update sent to a social network through one connection. */
  datatype Dispatch = Dispatch(provider: SocialProvider, connection: SocialConnection, message: string)

  /** The counters the resource keeps up to date. */
  datatype Stats = Stats(
    distance: real,                  // the global distance counter
    seconds: int,                    // the global activity-seconds counter
    goalDistance: map<GoalId, real>, // total distance covered per goal
    runDistance: map<string, real>,  // distance per community run, by slug
    runSeconds: map<string, int>)    // seconds per community run, by slug

  /** Two counter states that read the same on every key (an unwritten key reads as zero). */
  ghost predicate SameReadings(a: Stats, b: Stats)
  {
    && a.distance == b.distance
    && a.seconds == b.seconds
    && (forall g :: ReadReal(a.goalDistance, g) == ReadReal(b.goalDistance, g))
    && (forall slug :: ReadReal(a.runDistance, slug) == ReadReal(b.runDistance, slug))
    && (forall slug :: ReadInt(a.runSeconds, slug) == ReadInt(b.runSeconds, slug))
  }

  /** Adds `amount` to the counter under `key`; every other key reads as before. */
  function BumpReal<K(!new)>(m: map<K, real>, key: K, amount: real): (r: map<K, real>)
    ensures ReadReal(r, key) == ReadReal(m, key) + amount
    ensures forall k :: k != key ==> ReadReal(r, k) == ReadReal(m, k)
  {
    m[key := ReadReal(m, key) + amount]
  }

  function BumpInt<K(!new)>(m: map<K, int>, key: K, amount: int): (r: map<K, int>)
    ensures ReadInt(r, key) == ReadInt(m, key) + amount
    ensures forall k :: k != key ==> ReadInt(r, k) == ReadInt(m, k)
  {
    m[key := ReadInt(m, key) + amount]
  }

  /**
    Adds a distance and a duration to the counters on behalf of an activity
    of `goal`: the two global counters, the goal's total, and for a
    community-run goal the run's totals. Every other reading stays put.
   */
  function AddToStats(s: Stats, goal: Goal, distance: real, duration: int): Stats
  {
    var run := goal.communityRun;
    var community := goal.goalType == CommunityRunGoal;
    Stats(
      s.distance + distance,
      s.seconds + duration,
      BumpReal(s.goalDistance, goal.id, distance),
      if community then BumpReal(s.runDistance, run, distance) else s.runDistance,
      if community then BumpInt(s.runSeconds, run, duration) else s.runSeconds)
  }

  /**
    What an addition does to the readings: the global counters, the goal's
    total and, for a community-run goal only, the run's totals grow by the
    amounts; every other reading stays put.
   */
  lemma AddToStatsReadings(s: Stats, goal: Goal, distance: real, duration: int)
    ensures var r := AddToStats(s, goal, distance, duration);
      && r.distance == s.distance + distance && r.seconds == s.seconds + duration
      && ReadReal(r.goalDistance, goal.id) == ReadReal(s.goalDistance, goal.id) + distance
      && (forall g :: g != goal.id ==> ReadReal(r.goalDistance, g) == ReadReal(s.goalDistance, g))
      && (goal.goalType == CommunityRunGoal ==>
           && ReadReal(r.runDistance, goal.communityRun) == ReadReal(s.runDistance, goal.communityRun) + distance
           && ReadInt(r.runSeconds, goal.communityRun) == ReadInt(s.runSeconds, goal.communityRun) + duration)
      && (forall slug :: goal.goalType != CommunityRunGoal || slug != goal.communityRun ==>
           ReadReal(r.runDistance, slug) == ReadReal(s.runDistance, slug))
      && (forall slug :: goal.goalType != CommunityRunGoal || slug != goal.communityRun ==>
           ReadInt(r.runSeconds, slug) == ReadInt(s.runSeconds, slug))
  {
  }

  /** Two additions for the same goal read as one addition of their sums. */
  lemma AddToStatsCompose(s: Stats, goal: Goal, d1: real, t1: int, d2: real, t2: int)
    ensures SameReadings(AddToStats(AddToStats(s, goal, d1, t1), goal, d2, t2),
                         AddToStats(s, goal, d1 + d2, t1 + t2))
  {
    AddToStatsReadings(s, goal, d1, t1);
    AddToStatsReadings(AddToStats(s, goal, d1, t1), goal, d2, t2);
    AddToStatsReadings(s, goal, d1 + d2, t1 + t2);
  }

  /** Adding nothing leaves every reading where it was. */
  lemma AddNothing(s: Stats, goal: Goal)
    ensures SameReadings(AddToStats(s, goal, 0.0, 0), s)
  {
    AddToStatsReadings(s, goal, 0.0, 0);
  }

  /**
    Posting an activity (d0, t0), updating it to (d1, t1) and deleting it
    leaves every counter reading where it started: the update applies the
    delta (d1 - d0, t1 - t0) and the delete the delta (0 - d1, 0 - t1).
   */
  lemma {:induction false} PostUpdateDeleteCancels(s: Stats, goal: Goal, d0: real, t0: int, d1: real, t1: int)
    ensures SameReadings(
      AddToStats(AddToStats(AddToStats(s, goal, d0, t0), goal, d1 - d0, t1 - t0), goal, 0.0 - d1, 0 - t1),
      s)
  {
    var posted := AddToStats(s, goal, d0, t0);
    var updated := AddToStats(posted, goal, d1 - d0, t1 - t0);
    var deleted := AddToStats(updated, goal, 0.0 - d1, 0 - t1);
    AddToStatsReadings(s, goal, d0, t0);
    AddToStatsReadings(posted, goal, d1 - d0, t1 - t0);
    AddToStatsReadings(updated, goal, 0.0 - d1, 0 - t1);
    forall g ensures ReadReal(deleted.goalDistance, g) == ReadReal(s.goalDistance, g) {
    }
    forall slug ensures ReadReal(deleted.runDistance, slug) == ReadReal(s.runDistance, slug) {
    }
    forall slug ensures ReadInt(deleted.runSeconds, slug) == ReadInt(s.runSeconds, slug) {
    }
  }

  /** Whether `share` asks for posts on the network of `provider`. */
  predicate Wants(share: Share, provider: SocialProvider)
  {
    match provider
    case Twitter => share.twitter
    case Facebook => share.facebook
    case GooglePlus => share.googlePlus
  }

  /** The posts one connection receives: the three flag-and-provider tests, in the order the code makes them. */
  function PostsFor(message: string, c: SocialConnection, share: Share): seq<Dispatch>
  {
    (if share.twitter && c.provider == Twitter then [Dispatch(Twitter, c, message)] else [])
    + (if share.facebook && c.provider == Facebook then [Dispatch(Facebook, c, message)] else [])
    + (if share.googlePlus && c.provider == GooglePlus then [Dispatch(GooglePlus, c, message)] else [])
  }

  /** The posts made while visiting `connections` in list order. */
  function SharePosts(message: string, connections: seq<SocialConnection>, share: Share): seq<Dispatch>
    decreases |connections|
  {
    if connections == [] then []
    else
      var n := |connections| - 1;
      SharePosts(message, connections[..n], share) + PostsFor(message, connections[n], share)
  }

  /** Reference definition: the connections whose network the share asks for, in list order. */
  function Targets(connections: seq<SocialConnection>, share: Share): seq<SocialConnection>
    decreases |connections|
  {
    if connections == [] then []
    else
      var n := |connections| - 1;
      Targets(connections[..n], share) + (if Wants(share, connections[n].provider) then [connections[n]] else [])
  }

  /** A connection is a target exactly when it is one of the connections and its network was asked for. */
  lemma {:induction false} TargetsAreWantedConnections(connections: seq<SocialConnection>, share: Share)
    ensures forall c :: c in Targets(connections, share) <==> c in connections && Wants(share, c.provider)
    decreases |connections|
  {
    if connections != [] {
      var n := |connections| - 1;
      TargetsAreWantedConnections(connections[..n], share);
      assert connections == connections[..n] + [connections[n]];
    }
  }

  /** Exactly one post per target connection, through that connection, in list order. */
  lemma {:induction false} SharePostsFollowTargets(message: string, connections: seq<SocialConnection>, share: Share)
    ensures |SharePosts(message, connections, share)| == |Targets(connections, share)|
    ensures forall i :: 0 <= i < |Targets(connections, share)| ==>
      SharePosts(message, connections, share)[i]
        == Dispatch(Targets(connections, share)[i].provider, Targets(connections, share)[i], message)
    decreases |connections|
  {
    if connections != [] {
      var n := |connections| - 1;
      SharePostsFollowTargets(message, connections[..n], share);
      var c := connections[n];
      assert PostsFor(message, c, share)
          == if Wants(share, c.provider) then [Dispatch(c.provider, c, message)] else [];
    }
  }

  /**
    The key-value counters the resource updates: the global distance and
    activity-seconds counters, the distance total per goal and the totals
    per community run. A key never written reads as zero.
   */
  class CounterStore {
    var distanceCount: real
    var secondsCount: int
    var goalDistance: map<GoalId, real>
    var runDistance: map<string, real>
    var runSeconds: map<string, int>

    /** The counters as one value. */
    ghost function Snapshot(): Stats
      reads this
    {
      Stats(distanceCount, secondsCount, goalDistance, runDistance, runSeconds)
    }

    constructor()
      ensures Snapshot() == Stats(0.0, 0, map[], map[], map[])
    {
      distanceCount, secondsCount := 0.0, 0;
      goalDistance, runDistance, runSeconds := map[], map[], map[];
    }

    method UpdateDistanceCount(distance: real)
      modifies this`distanceCount
      ensures distanceCount == old(distanceCount) + distance
    {
      distanceCount := distanceCount + distance;
    }

    method UpdateActivitySecondsCount(seconds: int)
      modifies this`secondsCount
      ensures secondsCount == old(secondsCount) + seconds
    {
      secondsCount := secondsCount + seconds;
    }

    method UpdateTotalDistanceCoveredForAGoal(goalId: GoalId, distance: real)
      modifies this`goalDistance
      ensures goalDistance == BumpReal(old(goalDistance), goalId, distance)
    {
      goalDistance := goalDistance[goalId := ReadReal(goalDistance, goalId) + distance];
    }

    method UpdateCommunityRunStats(slug: string, distance: real, seconds: int)
      modifies this`runDistance, this`runSeconds
      ensures runDistance == BumpReal(old(runDistance), slug, distance)
      ensures runSeconds == BumpInt(old(runSeconds), slug, seconds)
    {
      runDistance := runDistance[slug := ReadReal(runDistance, slug) + distance];
      runSeconds := runSeconds[slug := ReadInt(runSeconds, slug) + seconds];
    }
  }

  class ActivityResource {
    /** The counters, shared with the rest of the application. */
    const counters: CounterStore
    /** The goal store, which this resource only reads. */
    const goals: map<GoalId, Goal>
    /** The activity store and the id it hands out next. */
    var activities: map<ActivityId, Activity>
    var nextActivityId: ActivityId
    var timeline: seq<TimelineEvent>
    /** Every status update sent to a social network. */
    var posts: seq<Dispatch>

    ghost predicate Valid()
      reads this
    {
      && (forall id :: id in activities ==> id < nextActivityId)
      && (forall g :: g in goals ==> goals[g].id == g)
    }

    /** The goal with this id, if the user owns it. */
    function FindGoal(user: Username, goalId: GoalId): Option<Goal>
    {
      if goalId in goals && goals[goalId].owner == user then Some(goals[goalId]) else None
    }

    /** The goal, the activity and the poster all check out for this user. */
    predicate MayChange(user: Username, goalId: GoalId, id: ActivityId)
      reads this
    {
      FindGoal(user, goalId).Some? && id in activities && activities[id].postedBy == user
    }

    constructor(goals: map<GoalId, Goal>, counters: CounterStore)
      requires forall g :: g in goals ==> goals[g].id == g
      ensures Valid()
      ensures this.goals == goals && this.counters == counters
      ensures activities == map[] && timeline == [] && posts == []
    {
      this.counters := counters;
      this.goals := goals;
      activities, nextActivityId := map[], 0;
      timeline, posts := [], [];
    }

    /**
      Logs a run against one of the user's goals: stores it, adds its full
      distance and duration to the counters and posts it to the timeline.
     */
    method PostActivity(user: Username, goalId: GoalId, distanceCovered: real, duration: int)
      returns (status: Status)
      requires Valid()
      modifies this, counters
      ensures Valid()
      ensures FindGoal(user, goalId).None? ==>
        status == NotFound && unchanged(this) && unchanged(counters)
      ensures FindGoal(user, goalId).Some? ==>
        var goal := goals[goalId];
        var id := old(nextActivityId);
        && status == Created(id)
        && id !in old(activities)
        && activities == old(activities)[id := Activity(goalId, user, distanceCovered, duration)]
        && counters.Snapshot() == AddToStats(old(counters.Snapshot()), goal, distanceCovered, duration)
        && timeline == old(timeline) + [Posted(id, goalId)]
        && posts == old(posts)
    {
      var found := FindGoal(user, goalId);
      if found.None? {
        return NotFound;
      }
      var goal := found.value;
      var id := nextActivityId;
      activities := activities[id := Activity(goalId, user, distanceCovered, duration)];
      nextActivityId := id + 1;
      var saved := activities[id];
      assert saved.distanceCovered == distanceCovered;
      ghost var before := counters.Snapshot();
      counters.UpdateDistanceCount(distanceCovered);
      counters.UpdateActivitySecondsCount(duration);
      counters.UpdateTotalDistanceCoveredForAGoal(goal.id, saved.distanceCovered);
      ghost var globalsAndGoal := before.(distance := before.distance + distanceCovered,
                                         seconds := before.seconds + duration,
                                         goalDistance := BumpReal(before.goalDistance, goal.id, distanceCovered));
      assert counters.Snapshot() == globalsAndGoal;
      timeline := timeline + [Posted(id, goal.id)];
      if goal.goalType == CommunityRunGoal {
        counters.UpdateCommunityRunStats(goal.communityRun, distanceCovered, duration);
      }
      status := Created(id);
    }

    /** Applies the change from an activity's old figures to its new ones to every counter. */
    method UpdateStats(goal: Goal, existingDistance: real, existingDuration: int, distanceCovered: real, duration: int)
      modifies counters
      ensures counters.Snapshot()
        == AddToStats(old(counters.Snapshot()), goal, distanceCovered - existingDistance, duration - existingDuration)
    {
      var distanceDelta := distanceCovered - existingDistance;
      counters.UpdateDistanceCount(distanceDelta);
      var durationDelta := duration - existingDuration;
      counters.UpdateActivitySecondsCount(durationDelta);
      counters.UpdateTotalDistanceCoveredForAGoal(goal.id, distanceDelta);
      if goal.goalType == CommunityRunGoal {
        counters.UpdateCommunityRunStats(goal.communityRun, distanceDelta, durationDelta);
      }
    }

    /**
      Replaces an activity's distance (given in `unit`, stored converted)
      and duration, and moves the counters by the difference.
     */
    method UpdateActivity(user: Username, goalId: GoalId, id: ActivityId,
                          distanceCovered: real, unit: GoalUnit, duration: int)
      returns (status: Status)
      requires Valid()
      modifies this, counters
      ensures Valid()
      ensures FindGoal(user, goalId).None? ==>
        status == NotFound && unchanged(this) && unchanged(counters)
      ensures FindGoal(user, goalId).Some? && id !in old(activities) ==>
        status == NotFound && unchanged(this) && unchanged(counters)
      ensures FindGoal(user, goalId).Some? && id in old(activities) && old(activities)[id].postedBy != user ==>
        status == Unauthorized && unchanged(this) && unchanged(counters)
      ensures old(MayChange(user, goalId, id)) ==>
        var goal := FindGoal(user, goalId).value;
        var existing := old(activities)[id];
        var stored := distanceCovered * (unit.conversion as real);
        && status == Ok
        && activities == old(activities)[id := existing.(distanceCovered := stored, duration := duration)]
        && counters.Snapshot()
           == AddToStats(old(counters.Snapshot()), goal, stored - existing.distanceCovered, duration - existing.duration)
        && timeline == old(timeline) + [Updated(id, goalId)]
        && nextActivityId == old(nextActivityId) && posts == old(posts)
    {
      var found := FindGoal(user, goalId);
      if found.None? {
        return NotFound;
      }
      var goal := found.value;
      if id !in activities {
        return NotFound;
      }
      var existing := activities[id];
      if user != existing.postedBy {
        return Unauthorized;
      }
      var stored := distanceCovered * (unit.conversion as real);
      activities := activities[id := existing.(distanceCovered := stored, duration := duration)];
      timeline := timeline + [Updated(id, goal.id)];
      UpdateStats(goal, existing.distanceCovered, existing.duration, stored, duration);
      status := Ok;
    }

    /** Removes an activity and takes its full distance and duration off every counter. */
    method DeleteActivity(user: Username, goalId: GoalId, id: ActivityId) returns (status: Status)
      requires Valid()
      modifies this, counters
      ensures Valid()
      ensures FindGoal(user, goalId).None? ==>
        status == NotFound && unchanged(this) && unchanged(counters)
      ensures FindGoal(user, goalId).Some? && id !in old(activities) ==>
        status == NotFound && unchanged(this) && unchanged(counters)
      ensures FindGoal(user, goalId).Some? && id in old(activities) && old(activities)[id].postedBy != user ==>
        status == Unauthorized && unchanged(this) && unchanged(counters)
      ensures old(MayChange(user, goalId, id)) ==>
        var goal := FindGoal(user, goalId).value;
        var existing := old(activities)[id];
        && status == NoContent
        && activities == old(activities) - {id}
        && counters.Snapshot()
           == AddToStats(old(counters.Snapshot()), goal, 0.0 - existing.distanceCovered, 0 - existing.duration)
        && timeline == old(timeline) + [Removed(id, goalId)]
        && nextActivityId == old(nextActivityId) && posts == old(posts)
    {
      var found := FindGoal(user, goalId);
      if found.None? {
        return NotFound;
      }
      var goal := found.value;
      if id !in activities {
        return NotFound;
      }
      var existing := activities[id];
      if user != existing.postedBy {
        return Unauthorized;
      }
      activities := activities - {id};
      timeline := timeline + [Removed(id, goal.id)];
      UpdateStats(goal, existing.distanceCovered, existing.duration, 0.0, 0);
      status := NoContent;
    }

    /**
      Posts `message` through every connection of the profile whose network
      the share asks for, visiting the connections in list order; a missing
      share posts nothing.
     */
    method ShareActivity(message: string, connections: seq<SocialConnection>, share: Option<Share>)
      returns (status: Status)
      modifies this`posts
      ensures status == Ok
      ensures share.None? ==> posts == old(posts)
      ensures share.Some? ==> posts == old(posts) + SharePosts(message, connections, share.value)
    {
      if share.Some? {
        var i := 0;
        while i < |connections|
          invariant 0 <= i <= |connections|
          invariant posts == old(posts) + SharePosts(message, connections[..i], share.value)
        {
          var c := connections[i];
          if share.value.twitter && c.provider == Twitter {
            posts := posts + [Dispatch(Twitter, c, message)];
          }
          if share.value.facebook && c.provider == Facebook {
            posts := posts + [Dispatch(Facebook, c, message)];
          }
          if share.value.googlePlus && c.provider == GooglePlus {
            posts := posts + [Dispatch(GooglePlus, c, message)];
          }
          assert connections[..i + 1][..i] == connections[..i];
          i := i + 1;
        }
        assert connections[..|connections|] == connections;
      }
      status := Ok;
    }

    /**
      A client of the resource: updating a run of one's own and then deleting
      it moves the counters by the update's difference and then by minus the
      updated figures, and leaves the run removed.
     */
    method UpdateThenDelete(user: Username, goalId: GoalId, id: ActivityId,
                            newDistance: real, unit: GoalUnit, newDuration: int)
      returns (updated: Status, deleted: Status)
      requires Valid() && MayChange(user, goalId, id)
      modifies this, counters
      ensures Valid()
      ensures updated == Ok && deleted == NoContent
      ensures var goal := FindGoal(user, goalId).value;
        var existing := old(activities)[id];
        var stored := newDistance * (unit.conversion as real);
        var afterUpdate := AddToStats(old(counters.Snapshot()), goal,
                                      stored - existing.distanceCovered, newDuration - existing.duration);
        counters.Snapshot() == AddToStats(afterUpdate, goal, 0.0 - stored, 0 - newDuration)
      ensures activities == old(activities) - {id}
    {
      ghost var before := activities;
      updated := UpdateActivity(user, goalId, id, newDistance, unit, newDuration);
      ghost var afterUpdate := activities;
      deleted := DeleteActivity(user, goalId, id);
      assert activities == afterUpdate - {id};
      assert activities == before - {id};
    }

    /**
      A client of the resource: posting a run, updating it and deleting it
      leaves every counter reading, and the activity store, as they were.
     */
    method PostUpdateDelete(user: Username, goalId: GoalId, distanceCovered: real, duration: int,
                            newDistance: real, unit: GoalUnit, newDuration: int)
      returns (posted: Status, updated: Status, deleted: Status)
      requires Valid()
      modifies this, counters
      ensures Valid()
      ensures FindGoal(user, goalId).Some? <==> posted.Created?
      ensures posted.Created? ==> updated == Ok && deleted == NoContent
      ensures SameReadings(counters.Snapshot(), old(counters.Snapshot()))
      ensures activities == old(activities)
    {
      ghost var before, stored0 := counters.Snapshot(), activities;
      posted := PostActivity(user, goalId, distanceCovered, duration);
      if !posted.Created? {
        return posted, posted, posted;
      }
      ghost var goal := FindGoal(user, goalId).value;
      ghost var afterPost := AddToStats(before, goal, distanceCovered, duration);
      assert counters.Snapshot() == afterPost;
      updated, deleted := UpdateThenDelete(user, goalId, posted.id, newDistance, unit, newDuration);
      ghost var stored := newDistance * (unit.conversion as real);
      assert activities == stored0;
      ghost var final := counters.Snapshot();
      assert final == AddToStats(AddToStats(afterPost, goal, stored - distanceCovered, newDuration - duration),
                                 goal, 0.0 - stored, 0 - newDuration);
      PostUpdateDeleteCancels(before, goal, distanceCovered, duration, stored, newDuration);
      assert SameReadings(final, before);
    }
  }
}
