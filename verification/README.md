# miles2run goal and activity bookkeeping in Dafny

miles2run is a running-goal tracker. A runner sets goals and logs runs against them, and
the server keeps several running totals in a key-value store:

- a global distance counter and a global activity-seconds counter;
- the distance covered per goal;
- the distance and seconds per community run.

This project models five parts of it and proves properties about each.

- **The activity resource** (`ActivityResource.dfy`, module `Activities`).
  - Posting, updating and deleting a run, with the fixed order of checks before anything changes: goal not found, activity not found, poster is not the caller.
  - The counter bookkeeping. Posting adds the full figures, updating adds the difference, deleting subtracts the stored figures.
  - Sharing a run on the poster's social networks.
  - The resource is a class over an activity store, a timeline log and a log of social posts. The counters are a separate `CounterStore` class whose methods stand for the counter services.
  - The main theorem: posting, updating and then deleting one run leaves every counter reading where it started (`PostUpdateDeleteCancels`, used by the client method `PostUpdateDelete`). This holds under the three assumptions listed first under "Left out": the community-run call made on posting adds exactly the run's distance and duration, counter arithmetic is exact, and the distance counted globally equals the distance saved.
- **The progress value** (`ProgressVo.dfy`). A pure function computes a goal's progress:
  - goal and distance converted into the goal's unit by truncating integer division;
  - the percentage floored from the unconverted figures and capped at 100;
  - whole minutes;
  - a pace that is only computed when the converted distance is non-zero.
- **The goal resource** (`GoalResource.dfy`, module `Goals`).
  - Listing goals, flat or grouped by goal type. The grouping loop is proved against a reference grouping that is defined by filtering.
  - Creating, updating and archiving a goal, with the distance scaled into the canonical unit and the not-found and ownership checks.
  - Answering a goal's progress, merging three fields into a duration goal's breakdown.
- **The "log your run" form** (`PostActivityCtrl.dfy`).
  - Converting the typed hours, minutes and seconds into seconds, and flagging a negative duration.
  - The submission guard.
  - The date-picker bounds, and the greying-out of weekends.
- **The "create goal" form** (`CreateGoalCtrl.dfy`).
  - Keeping the end date and the number of days in step, in both directions.
  - The start-before-end check for duration goals.
  - Choosing the page for the chosen goal type, and shaping the goal that is posted.

How the model represents the system:

- External services are state or parameters.
  - The key-value counters are maps in which a key never written reads as zero. Counter states are compared reading by reading (`SameReadings`).
  - The timeline and the social networks are logs of the requests made to them.
  - The goal found for the logged-in user is looked up in a goal store that the activity resource only reads. The activity resource's `goals` and the goal resource's `goals` stand for the same persistence store, written only by the goal resource.
  - The current date, the form's own validity (set by the view) and a failure while saving are parameters.
- Dates are whole day numbers. Day 0 is 1970-01-01, a Thursday.
- Distances in the activity resource are `real`. Goal distances and progress figures are unbounded integers.
- Java's `/` on `long` truncates toward zero, which `TruncDiv` models. The percentage is the floor of the exact quotient (`FloorDiv`).

The model follows two behaviours of the code as written:

- Updating or deleting a run only checks that the goal in the request path belongs to the caller. It does not check that the activity belongs to that goal, and the counter difference is applied to the goal in the path.
- Updating a run stores the submitted distance multiplied by its unit's conversion factor.

## Model

| member | source | states |
|---|---|---|
| Domain.TruncDiv | src/main/java/org/miles2run/business/vo/Progress.java:21-22 | Java long division: the quotient times the divisor lies within one divisor of the dividend, on the dividend's side of zero |
| Domain.FloorDiv | src/main/java/org/miles2run/business/vo/Progress.java:25-26 | the floor of the exact quotient: q·b ≤ a < q·b + b for a positive divisor (and mirrored for a negative one) |
| ProgressVo.Percentage | src/main/java/org/miles2run/business/vo/Progress.java:24-28 | 0 for a zero goal; never above 100; exactly 100 iff the distance reaches the goal; below that it is the floor of 100·distance/goal; non-negative for a non-negative distance; for a negative goal, exactly 100 iff the distance is at or below the goal, otherwise the floor of 100·distance/goal |
| ProgressVo.NewProgress | src/main/java/org/miles2run/business/vo/Progress.java:19-34 | goal and distance are the raw values truncated toward zero by the conversion factor, for either sign; the percentage comes from the unconverted values; count and seconds pass through; minutes are seconds truncated toward zero by 60; the pace is 0 when the converted distance is 0 and otherwise minutes per converted unit |
| ProgressVo.ShortDistanceHasNoPace | src/main/java/org/miles2run/business/vo/Progress.java:31-33 | a raw distance shorter than one unit converts to 0, so the pace stays 0 |
| ProgressVo.DefaultProgressIsEmptyZeroGoal | src/main/java/org/miles2run/business/vo/Progress.java:37-42 | the default progress equals the progress of a zero goal with no activity, apart from the unit |
| ProgressVo.ProfileProgress | src/main/java/org/miles2run/business/vo/Progress.java:44-51 | the profile's unit; goal is the profile goal truncated toward zero by the conversion; percentage, pace, distance and count 0 |
| ProgressVo.ProfileProgressIsEmptyProgress | src/main/java/org/miles2run/business/vo/Progress.java:44-51 | a profile's progress equals the five-argument progress of its goal with no distance, activities or time |
| Activities.AddToStatsReadings | src/main/java/org/miles2run/jaxrs/api/v1/ActivityResource.java:197-207 | the global counters, the goal's total and, only for a community-run goal, the run's totals grow by the given amounts; every other reading is unchanged |
| Activities.AddToStatsCompose | src/main/java/org/miles2run/jaxrs/api/v1/ActivityResource.java:197-207 | two successive additions for one goal read the same as a single addition of their sums |
| Activities.AddNothing | src/main/java/org/miles2run/jaxrs/api/v1/ActivityResource.java:127 | adding a zero distance and a zero duration changes no reading |
| Activities.PostUpdateDeleteCancels | src/main/java/org/miles2run/jaxrs/api/v1/ActivityResource.java:84-151 | posting (d0, t0), updating to (d1, t1) and deleting leaves every counter reading where it started |
| Activities.TargetsAreWantedConnections | src/main/java/org/miles2run/jaxrs/api/v1/ActivityResource.java:176-192 | a connection is posted to iff it is one of the profile's connections and its network's share flag is set |
| Activities.SharePostsFollowTargets | src/main/java/org/miles2run/jaxrs/api/v1/ActivityResource.java:176-192 | exactly one post per such connection, through that connection and its provider, in list order |
| Activities.CounterStore.UpdateDistanceCount | src/main/java/org/miles2run/jaxrs/api/v1/ActivityResource.java:84 | the global distance counter grows by the amount |
| Activities.CounterStore.UpdateActivitySecondsCount | src/main/java/org/miles2run/jaxrs/api/v1/ActivityResource.java:85 | the global seconds counter grows by the amount |
| Activities.CounterStore.UpdateTotalDistanceCoveredForAGoal | src/main/java/org/miles2run/jaxrs/api/v1/ActivityResource.java:86 | the goal's total grows by the amount; no other goal's total changes |
| Activities.CounterStore.UpdateCommunityRunStats | src/main/java/org/miles2run/jaxrs/api/v1/ActivityResource.java:89 | the run's distance and seconds grow by the amounts; no other run changes |
| Activities.ActivityResource.PostActivity | src/main/java/org/miles2run/jaxrs/api/v1/ActivityResource.java:70-92 | 404 with nothing changed when the caller has no such goal; otherwise 201 with a fresh id, the run stored, its full distance and duration added to the counters (run totals only for community-run goals) and a timeline post |
| Activities.ActivityResource.UpdateStats | src/main/java/org/miles2run/jaxrs/api/v1/ActivityResource.java:197-207 | the counters move by exactly (new − old) distance and duration, per the rules of AddToStats |
| Activities.ActivityResource.UpdateActivity | src/main/java/org/miles2run/jaxrs/api/v1/ActivityResource.java:106-129 | 404 for a missing goal, then 404 for a missing activity, then 401 for another poster, each with nothing changed; otherwise 200, the distance stored multiplied by the unit's factor, the counters moved by the difference, a timeline update |
| Activities.ActivityResource.DeleteActivity | src/main/java/org/miles2run/jaxrs/api/v1/ActivityResource.java:134-153 | the same three checks in the same order; otherwise 204, the run removed, its stored distance and duration subtracted in full, a timeline removal |
| Activities.ActivityResource.ShareActivity | src/main/java/org/miles2run/jaxrs/api/v1/ActivityResource.java:174-195 | no share posts nothing; otherwise the posts appended are those of SharePosts over the connections in order |
| Activities.ActivityResource.UpdateThenDelete | src/main/java/org/miles2run/jaxrs/api/v1/ActivityResource.java:123-151 | updating one's own run and then deleting it both succeed, move the counters by the update's difference and then by minus the updated figures, and leave the run removed |
| Activities.ActivityResource.PostUpdateDelete | src/main/java/org/miles2run/jaxrs/api/v1/ActivityResource.java:84-151 | post, update and delete of one run all succeed once the goal is found, and leave every counter reading and the activity store as they were |
| Goals.GroupGoalsByType | src/main/java/org/miles2run/jaxrs/api/v1/GoalResource.java:58-74 | the map built by the loop equals the reference grouping of the goals with their covered distances |
| Goals.TypesOfSnoc | src/main/java/org/miles2run/jaxrs/api/v1/GoalResource.java:64-71 | one more goal adds exactly its type to the types present |
| Goals.GroupingSnoc | src/main/java/org/miles2run/jaxrs/api/v1/GoalResource.java:64-71 | one more goal appends it to its own type's list, creating the list when the type is new |
| Goals.GroupingShape | src/main/java/org/miles2run/jaxrs/api/v1/GoalResource.java:58-74 | the keys are exactly the types present, and each key's list is that type's goals and is never empty |
| Goals.OfTypeContains | src/main/java/org/miles2run/jaxrs/api/v1/GoalResource.java:60-71 | every goal lands in the list of its own type |
| Goals.OfTypeHasType | src/main/java/org/miles2run/jaxrs/api/v1/GoalResource.java:58-74 | every goal in a type's list has that type and comes from the input |
| Goals.OfTypeAppend | src/main/java/org/miles2run/jaxrs/api/v1/GoalResource.java:58-74 | filtering by type distributes over concatenation, so relative input order is kept |
| Goals.OfTypePartition | src/main/java/org/miles2run/jaxrs/api/v1/GoalResource.java:58-74 | the three lists together hold each input goal exactly as often as the input does |
| Goals.OfTypeCounts | src/main/java/org/miles2run/jaxrs/api/v1/GoalResource.java:58-74 | the three list lengths sum to the number of goals |
| Goals.GoalResource.AllGoal | src/main/java/org/miles2run/jaxrs/api/v1/GoalResource.java:49-56 | grouped only when grouping is given and true; otherwise the flat list of the caller's goals with that archive flag |
| Goals.GoalResource.CreateGoal | src/main/java/org/miles2run/jaxrs/api/v1/GoalResource.java:96-106 | a failure answers 500 with its message and stores nothing; otherwise 201 and the goal stored with distance × conversion, owned by the caller |
| Goals.GoalResource.UpdateGoal | src/main/java/org/miles2run/jaxrs/api/v1/GoalResource.java:112-124 | 404 for a missing goal, 401 for another owner, each with nothing changed; otherwise 200 and the goal replaced with its distance scaled |
| Goals.GoalResource.ArchiveGoal | src/main/java/org/miles2run/jaxrs/api/v1/GoalResource.java:130-138 | 404 with nothing changed when the caller has no such goal; otherwise only that goal's archive flag is set to the value asked for |
| Goals.GoalResource.GoalProgress | src/main/java/org/miles2run/jaxrs/api/v1/GoalResource.java:144-160 | 404 for a missing goal; the progress itself for a distance goal; otherwise the breakdown with activityCount, totalDistanceCovered and goalUnit taken from the progress, overwriting those keys, and every other entry kept |
| PostActivity.BlankFieldCountsAsZero | src/main/webapp/scripts/goal/controllers/PostActivityCtrl.js:23-31 | an empty or "00" field gives the same total as a field entered as 0, and a duration with every field blank totals 0, as no duration does; the identical file-level copy at lines 100-108 is the same function |
| PostActivity.ToAppSecondsRoundTrip | src/main/webapp/scripts/goal/controllers/PostActivityCtrl.js:23-31 | with minutes and seconds below 60, hours, minutes and seconds are recovered from the total |
| PostActivity.NonNegativeDurationIsValid | src/main/webapp/scripts/goal/controllers/PostActivityCtrl.js:14-21 | non-negative fields never give a negative total, so such a duration is never flagged |
| PostActivity.DistanceGoalSubmitsValidForm | src/main/webapp/scripts/goal/controllers/PostActivityCtrl.js:35-41 | for a distance goal with non-negative fields, the form is submitted iff its own validators pass, whatever the old flag said |
| PostActivity.StaleFlagBlocksOtherGoals | src/main/webapp/scripts/goal/controllers/PostActivityCtrl.js:35-38 | for any other goal type the duration is not revalidated, so a flag left set blocks submission |
| PostActivity.MaxDate | src/main/webapp/scripts/goal/controllers/PostActivityCtrl.js:79 | today without an end date; otherwise the earlier of the end date and today, never later than either |
| PostActivity.Weekday | src/main/webapp/scripts/goal/controllers/PostActivityCtrl.js:73 | the day of the week lies in 0..6; which number each day gets is fixed by WeekdayAnchor |
| PostActivity.WeekdayAnchor | src/main/webapp/scripts/goal/controllers/PostActivityCtrl.js:72-74 | day 0 (1970-01-01) is a Thursday; a day is a Sunday (0) exactly when it is 3 past a multiple of seven and a Saturday (6) exactly when it is 2 past one, as `getDay()` numbers them |
| PostActivity.WeekdayNext | src/main/webapp/scripts/goal/controllers/PostActivityCtrl.js:73 | the day after a Saturday is a Sunday, and every other day is followed by the next weekday |
| PostActivity.DisabledWeekly | src/main/webapp/scripts/goal/controllers/PostActivityCtrl.js:72-74 | which days are greyed out repeats every seven days |
| PostActivity.WeekendIsTwoDays | src/main/webapp/scripts/goal/controllers/PostActivityCtrl.js:72-74 | in day mode two consecutive days are both greyed out iff the first is a Saturday, and never three in a row |
| PostActivity.PostActivityCtrl.constructor | src/main/webapp/scripts/goal/controllers/PostActivityCtrl.js:8-82 | the button reads "Log your Run", nothing is submitted or posted yet, and the picker is bounded as ToggleMin bounds it |
| PostActivity.PostActivityCtrl.ValidateDuration | src/main/webapp/scripts/goal/controllers/PostActivityCtrl.js:14-21 | the duration is flagged invalid iff it comes to fewer than 0 seconds |
| PostActivity.PostActivityCtrl.PostActivity | src/main/webapp/scripts/goal/controllers/PostActivityCtrl.js:33-55 | always marked submitted; the flag is recomputed only for a distance goal; when the form is valid and the duration not flagged, the run is posted with ToAppSeconds of the duration and the button text changes; otherwise nothing else changes |
| PostActivity.PostActivityCtrl.ToggleMin | src/main/webapp/scripts/goal/controllers/PostActivityCtrl.js:76-81 | the earliest day is the goal's start date (or none); the latest is MaxDate of the goal's end date and today |
| CreateGoal.OneDaySpan | src/main/webapp/scripts/home/controllers/CreateGoalCtrl.js:128-132 | a one-day span ends on its start date |
| CreateGoal.DayCountOfAddDays | src/main/webapp/scripts/home/controllers/CreateGoalCtrl.js:114-132 | counting the days of the span AddDays builds gives back its length |
| CreateGoal.AddDaysOfDayCount | src/main/webapp/scripts/home/controllers/CreateGoalCtrl.js:114-132 | the span as long as the days counted from start to end ends on that end |
| CreateGoal.RouteFor | src/main/webapp/scripts/home/controllers/CreateGoalCtrl.js:16-26 | the duration page iff the type is "duration_goal"; the distance page for every other value |
| CreateGoal.CreateGoalCtrl.constructor | src/main/webapp/scripts/home/controllers/CreateGoalCtrl.js:7-112 | a ten-day goal in miles starting today whose end date is today + 9; button "Create"; nothing posted |
| CreateGoal.CreateGoalCtrl.RenderNextView | src/main/webapp/scripts/home/controllers/CreateGoalCtrl.js:16-26 | navigates to RouteFor of the chosen type |
| CreateGoal.CreateGoalCtrl.NumberOfDaysUpdated | src/main/webapp/scripts/home/controllers/CreateGoalCtrl.js:114-118 | a non-zero number of days moves the end date so the span from the start has that many days; otherwise only the number changes |
| CreateGoal.CreateGoalCtrl.StartDateUpdated | src/main/webapp/scripts/home/controllers/CreateGoalCtrl.js:120-122 | the number of days becomes end − start + 1, consistent with AddDays |
| CreateGoal.CreateGoalCtrl.EndDateUpdated | src/main/webapp/scripts/home/controllers/CreateGoalCtrl.js:124-126 | the number of days becomes end − start + 1, consistent with AddDays |
| CreateGoal.CreateGoalCtrl.NumberOfDaysRoundTrip | src/main/webapp/scripts/home/controllers/CreateGoalCtrl.js:114-132 | entering n days and then recounting from the dates gives back n |
| CreateGoal.CreateGoalCtrl.ValidateDateRange | src/main/webapp/scripts/home/controllers/CreateGoalCtrl.js:35-43 | with both dates, the start is flagged invalid iff it is not before the end; with either missing the flag is untouched |
| CreateGoal.CreateGoalCtrl.PostGoal | src/main/webapp/scripts/home/controllers/CreateGoalCtrl.js:52-57 | the goal posted carries the given type and no number of days; the button text changes |
| CreateGoal.CreateGoalCtrl.CreateDistanceGoal | src/main/webapp/scripts/home/controllers/CreateGoalCtrl.js:28-33 | marked submitted; posted as a distance goal iff the form is valid, with no date check |
| CreateGoal.CreateGoalCtrl.CreateDurationGoal | src/main/webapp/scripts/home/controllers/CreateGoalCtrl.js:44-50 | marked submitted; the start flag is set iff start ≥ end; posted as a duration goal iff the form is valid and start < end |

## Left out

- Activities.ActivityResource.PostActivity: the community-run service call made on posting (ActivityResource.java:89, which is passed the user, the goal and the whole activity) is modelled as adding the run's distance and duration to that run's counters, the same as the call `updateStats` makes at line 205. The service is not available, so any per-user record it keeps, or any other figure it adds, is not modelled, and the cancellation theorem assumes there is none.
- Activities.PostUpdateDeleteCancels: counters hold exact `real` distances, while the source adds Java doubles. In double arithmetic posting, updating and deleting need not cancel exactly (rounding can leave a difference in the last bits), so the theorem holds for exact arithmetic only.
- Activities.ActivityResource.PostActivity: the global counter receives the request's distance (line 84) and the goal total the distance read back from the saved activity (line 86). The model takes them to be equal, which assumes persistence stores the distance unchanged.
- The key-value store, the timeline service and JPA persistence are state in this model. Their atomicity, concurrency and failures are not modelled. The only failure modelled is the one `createGoal` catches.
- CommunityRunJoinTest.java (concurrent joining and leaving of community runs) is not part of this model. The service it exercises is not available, and its safety rests on database isolation.
- RedisKeyNames.java holds only key-name constants. The counters are keyed here by goal id and run slug instead.
- The social-network clients are left out. Posting is recorded as a dispatch in a log.
- The message built for sharing (`toActivityMessage`, URL building) and the public share endpoint around the dispatch loop are left out. The message is a parameter.
- Turning an activity request into an activity is left out, because it is code that is not available. So is the single-activity GET endpoint, which only reads the store.
- The single-goal GET endpoint of the goal resource is not modelled. It only reads, and it lacks the not-found check the other endpoints make.
- How goal details are built for each goal type is not available. A listed goal is modelled as the goal together with its covered distance.
- The distance and seconds figures inside the progress value are not modelled. Computing them and the duration-goal breakdown is done by services that are not available, so they are parameters of `GoalProgress`.
- The order in which the goal store lists a user's goals is assumed to be store order.
- Activities.ActivityResource.UpdateActivity: fields of the stored activity other than distance and duration are left as they were, because what the persistence update copies is not available.
- Goals.GoalResource.UpdateGoal: the stored goal takes every submitted field except its id, owner and archive flag, because what the persistence update copies is not available.
- ProgressVo.NewProgress: the pace is exact `real` division, not double-precision arithmetic. The percentage is an exact floor of the integer quotient, without the rounding of the double computation.
- Goal distances, durations and counters are unbounded integers, so 64-bit overflow is not modelled.
- Date handling is simplified.
  - Dates are whole day numbers, so time zones, daylight saving and times of day are not modelled.
  - The posted activity's date formatting is left out.
  - The "create goal" date pickers are assumed never to be cleared.
- Typed text is treated as already parsed. `Number()` parsing and NaN are not modelled, so a duration field is empty, "00" or a whole number; fractional entries such as "1.5" hours are not modelled.
- The remaining view handling in both controllers is left out, because it does not touch the modelled state:
  - navigation and toasts after the server answers;
  - the date-picker open and toggle handlers, today/clear, toggleWeeks, and the "create goal" picker minimum dates (toggleMin, minStartDate, minEndDate);
  - the display formats.
