# Fleet scheduling with weather-aware routing: a verified model

This project models, in Dafny, the scheduling core of a GPS fleet tracker.
It also proves properties of that model.

**The smart scheduling service.** It assigns delivery tasks to vehicles
greedily:

- Tasks leave a priority queue ordered by priority, then by deadline.
- For each task, the service tries every vehicle able to carry it. A vehicle
  is skipped when it is still busy after the task's deadline, when its
  maintenance is due, or when no driver is free.
- Each remaining vehicle gets the weather-optimal departure and a score.
- The best-scoring slot becomes a scheduled task, appended to that
  vehicle's list, and the vehicle's availability moves to the slot's end.

**The weather-aware routing service.** The scheduler depends on it for:

- a forecast cache keyed by rounded coordinates, with a 30-minute
  lifetime;
- weather samples at 11 points of the straight line;
- a clamped, weighted risk score;
- a search for the least risky departure on a 30-minute grid;
- a 21-point straight base route, with interior points detoured around
  severe weather;
- advisories for conditions seen at more than a third of the points.

**Maintenance schedules and driver schedules.** Two small time predicates.
Both divide whole hours with Java's truncating `long` division.

How the model is built:

- Times and durations are whole minutes. Doubles are exact reals.
- The clock, the forecast provider, the weather classification, the
  geometry, and the vehicle and driver databases are parameters.
- The routing service and the scheduling service are classes whose methods
  update their maps, as the services do.
- Each method is proved equal to a pure specification function that threads
  the forecast cache: `ForecastLookup`, `Sampled`, `Scanned`, `Evaluate`,
  `Searched` and `Ran`. The properties are proved about those functions.

The modules, in dependency order:

- `Common` (`common.dfy`): null and exceptions, truncating division,
  whole-hour ratios.
- `Maintenance` (`maintenance.dfy`) and `Fatigue` (`fatigue.dfy`): the two
  fleet records with behaviour.
- `WeatherRisk` (`weather_risk.dfy`): risk score, advisories, base route,
  route adjustment.
- `WeatherAwareRouting` (`weather_service.dfy`): the cache, sampling, the
  departure search, and the routing service class.
- `FleetModel` (`fleet.dfy`): the scheduling records, the slot score and
  fuel efficiency.
- `SlotSearch` (`slot_search.dfy`): one task's search over the vehicles, and
  the selection of the best slot.
- `Schedule` (`schedule.dfy`): the priority queue and the whole greedy run,
  as functions.
- `SmartScheduling` (`scheduling_service.dfy`): the scheduling service
  class.

## Model

| member | source | states |
|---|---|---|
| `Common.JavaDiv` | src/main/java/com/gpstracker/model/fleet/MaintenanceSchedule.java:20 | `long` division truncates toward zero: the quotient's magnitude is the quotient of the magnitudes, and it is negative only when the signs differ and the dividend's magnitude reaches the divisor's |
| `Common.ToHours` | src/main/java/com/gpstracker/model/fleet/MaintenanceSchedule.java:20 | `Duration.toHours` gives the floor of minutes/60 for non-negative durations, and 0 exactly when the duration is under one hour either way |
| `Common.CappedHourRatio` | src/main/java/com/gpstracker/model/fleet/DriverSchedule.java:25 | `min(1, hours(n) / hours(d))` throws `/ by zero` exactly when `d` is under an hour, and is never above 1 otherwise |
| `Common.CappedHourRatioZeroOrOne` | src/main/java/com/gpstracker/model/fleet/MaintenanceSchedule.java:20 | with a non-negative numerator and a denominator of at least an hour, the ratio is exactly 0 or 1; it is 1 iff the whole hours of the numerator reach those of the denominator |
| `Common.CappedHourRatioMonotone` | src/main/java/com/gpstracker/model/fleet/DriverSchedule.java:25 | a larger numerator never gives a smaller ratio |
| `Common.JavaDivMonotone` | src/main/java/com/gpstracker/model/fleet/MaintenanceSchedule.java:20 | truncating division by a positive divisor is monotone in the dividend, negative dividends included |
| `Maintenance.MaintenanceSchedule.CalculateUrgency` | src/main/java/com/gpstracker/model/fleet/MaintenanceSchedule.java:18-21 | urgency is never above 1 |
| `Maintenance.DueBoundary` | src/main/java/com/gpstracker/model/fleet/MaintenanceSchedule.java:14-16 | maintenance is not due at exactly `lastMaintenance + interval`, and is due at every instant strictly after it |
| `Maintenance.DueMonotone` | src/main/java/com/gpstracker/model/fleet/MaintenanceSchedule.java:14-16 | once due, maintenance is due at every later time |
| `Maintenance.UrgencyZeroOrOne` | src/main/java/com/gpstracker/model/fleet/MaintenanceSchedule.java:18-21 | for a past last service and an interval of at least an hour, urgency is exactly 0 or 1, and it is 1 iff whole elapsed hours reach whole interval hours |
| `Maintenance.UrgencyDivideByZero` | src/main/java/com/gpstracker/model/fleet/MaintenanceSchedule.java:20 | urgency throws iff the interval is shorter than an hour (in either direction) |
| `Maintenance.UrgencyMonotone` | src/main/java/com/gpstracker/model/fleet/MaintenanceSchedule.java:18-21 | urgency never falls as the clock advances |
| `Maintenance.UrgencyIgnoresPlan` | src/main/java/com/gpstracker/model/fleet/MaintenanceSchedule.java:12-21 | urgency does not depend on `nextScheduled` or on the vehicle id |
| `Fatigue.CalculateFatigueScore` | src/main/java/com/gpstracker/model/fleet/DriverSchedule.java:14-27 | the loop computes the capped whole-hour ratio of the counted shifts' stored durations to the daily maximum; the result is never above 1 and throws iff the maximum is under an hour |
| `Fatigue.EmptyScheduleIsRested` | src/main/java/com/gpstracker/model/fleet/DriverSchedule.java:16-25 | no shifts give fatigue 0 |
| `Fatigue.FatigueZeroOrOne` | src/main/java/com/gpstracker/model/fleet/DriverSchedule.java:25 | for non-negative durations and a maximum of at least an hour, fatigue is exactly 0 or 1, and it is 1 iff the whole hours counted reach the maximum's |
| `Fatigue.BoundaryShiftExcluded` | src/main/java/com/gpstracker/model/fleet/DriverSchedule.java:20 | a shift ending exactly 24 hours before `time` adds nothing |
| `Fatigue.QualifyingShiftCounted` | src/main/java/com/gpstracker/model/fleet/DriverSchedule.java:20-21 | a shift ending after `time - 24h` adds its stored duration, even when it ends after `time` |
| `Fatigue.AddingShiftNeverLowersFatigue` | src/main/java/com/gpstracker/model/fleet/DriverSchedule.java:19-25 | adding a qualifying shift of non-negative duration never lowers fatigue |
| `Fatigue.StartTimesIgnored` | src/main/java/com/gpstracker/model/fleet/DriverSchedule.java:20-21 | shift start times play no part: only end times and stored durations are read |
| `Fatigue.RecentDurationNonNegative` | src/main/java/com/gpstracker/model/fleet/DriverSchedule.java:19-23 | non-negative durations sum to a non-negative total |
| `WeatherRisk.WeightOrder` | src/main/java/com/gpstracker/service/weather/WeatherAwareRoutingService.java:82-97 | the weights order storm > snow > fog > rain > clear, and clear weighs 0 |
| `WeatherRisk.RiskScore` | src/main/java/com/gpstracker/service/weather/WeatherAwareRoutingService.java:78-101 | the risk is never above 1, and an empty list gives 0 |
| `WeatherRisk.CalculateWeatherRiskScore` | src/main/java/com/gpstracker/service/weather/WeatherAwareRoutingService.java:78-101 | the accumulator loop computes `min(1, sum of severity * weight)`, which lies in [0, 1] for non-negative severities |
| `WeatherRisk.RiskScoreBounds` | src/main/java/com/gpstracker/service/weather/WeatherAwareRoutingService.java:100 | with non-negative severities the risk lies in [0, 1] |
| `WeatherRisk.RiskSumNonNegative` | src/main/java/com/gpstracker/service/weather/WeatherAwareRoutingService.java:81-98 | non-negative severities give a non-negative weighted sum |
| `WeatherRisk.RiskSumAppend` | src/main/java/com/gpstracker/service/weather/WeatherAwareRoutingService.java:81-98 | the weighted sum is additive over concatenation |
| `WeatherRisk.RiskScoreMonotone` | src/main/java/com/gpstracker/service/weather/WeatherAwareRoutingService.java:78-101 | more points of non-negative severity never lower the risk |
| `WeatherRisk.CountAtMostLength` | src/main/java/com/gpstracker/service/weather/WeatherAwareRoutingService.java:245-247 | no condition is counted more often than there are points |
| `WeatherRisk.CountPositive` | src/main/java/com/gpstracker/service/weather/WeatherAwareRoutingService.java:245-247 | a condition has a positive count iff some point reports it |
| `WeatherRisk.AdvisoryLengths` | src/main/java/com/gpstracker/service/weather/WeatherAwareRoutingService.java:258-271 | each advisory text has its own length |
| `WeatherRisk.AdvisoryForInjective` | src/main/java/com/gpstracker/service/weather/WeatherAwareRoutingService.java:258-271 | different conditions get different advisories |
| `WeatherRisk.CountConditions` | src/main/java/com/gpstracker/service/weather/WeatherAwareRoutingService.java:243-247 | the merge loop makes a condition a key iff some point reports it, mapped to its number of points |
| `WeatherRisk.GenerateWeatherAdvisories` | src/main/java/com/gpstracker/service/weather/WeatherAwareRoutingService.java:241-256 | a condition's advisory is listed iff its count exceeds `size / 3` (integer division); every listed advisory belongs to such a condition; no advisory is listed twice; no points give no advisories |
| `WeatherRisk.AdvisoriesOfDistinctConditions` | src/main/java/com/gpstracker/service/weather/WeatherAwareRoutingService.java:249-253 | advisories for distinct prevalent conditions are distinct and cover exactly the prevalent conditions |
| `WeatherRisk.CountsSumAtMostLength` | src/main/java/com/gpstracker/service/weather/WeatherAwareRoutingService.java:245-247 | the counts of three distinct conditions add up to at most the number of points |
| `WeatherRisk.AtMostTwoPrevalent` | src/main/java/com/gpstracker/service/weather/WeatherAwareRoutingService.java:250 | no three distinct conditions can each exceed a third of the points |
| `WeatherRisk.CalculateBaseRoute` | src/main/java/com/gpstracker/service/weather/WeatherAwareRoutingService.java:168-185 | the base route has exactly 21 points, point `i` at `i/20` of the way, the first at the start and the last at the end |
| `WeatherRisk.NearestFrom` | src/main/java/com/gpstracker/service/weather/WeatherAwareRoutingService.java:216-218 | the scan keeps a point at least as close as every point, and strictly closer than every point before it |
| `WeatherRisk.FindNearestWeatherPoint` | src/main/java/com/gpstracker/service/weather/WeatherAwareRoutingService.java:215-220 | there is no nearest point iff no weather was sampled; otherwise it is one of the sampled points |
| `WeatherRisk.NearestIsFirstNearest` | src/main/java/com/gpstracker/service/weather/WeatherAwareRoutingService.java:215-220 | the point found is a closest one, the first among equally close ones |
| `WeatherRisk.DetourInterior` | src/main/java/com/gpstracker/service/weather/WeatherAwareRoutingService.java:196-204 | the in-place pass keeps the length, keeps both endpoints, and replaces each interior point by its detour |
| `WeatherRisk.AdjustRouteForWeather` | src/main/java/com/gpstracker/service/weather/WeatherAwareRoutingService.java:187-213 | the adjusted route keeps the length and both endpoints; it equals the base route when the risk is at most 0.5; it moves only interior points whose nearest weather is severe (above 0.7) or a storm; when the risk exceeds 0.5 each interior point is its detour; it carries the sampled points and their risk, and lists the advisory of every prevalent condition, no other text and none twice |
| `WeatherAwareRouting.CacheHit` | src/main/java/com/gpstracker/service/weather/WeatherAwareRoutingService.java:56-60 | a valid entry is returned without a fetch, and the cache is unchanged |
| `WeatherAwareRouting.CacheMiss` | src/main/java/com/gpstracker/service/weather/WeatherAwareRoutingService.java:67-72 | on a miss the fetched reply is returned; a reply is stored under the key with timestamp `now`, and a null reply leaves the cache unchanged |
| `WeatherAwareRouting.OtherKeysUntouched` | src/main/java/com/gpstracker/service/weather/WeatherAwareRoutingService.java:69 | a lookup never changes another key's entry |
| `WeatherAwareRouting.EntryLifetime` | src/main/java/com/gpstracker/service/weather/WeatherAwareRoutingService.java:137-140 | an entry stored at `t` is valid iff `now < t + 30` |
| `WeatherAwareRouting.LookupIdempotent` | src/main/java/com/gpstracker/service/weather/WeatherAwareRoutingService.java:54-73 | repeating a lookup at the same instant returns the same forecast and leaves the same cache |
| `WeatherAwareRouting.SamplingShape` | src/main/java/com/gpstracker/service/weather/WeatherAwareRoutingService.java:147-165 | sampling yields at most one point per sample index, in rising index order, each at its interpolated position, so at most 11 points |
| `WeatherAwareRouting.ExtendSampledAt` | src/main/java/com/gpstracker/service/weather/WeatherAwareRoutingService.java:155-162 | one more sample, present or skipped, keeps the points ordered by sample index |
| `WeatherAwareRouting.SamplingComplete` | src/main/java/com/gpstracker/service/weather/WeatherAwareRoutingService.java:150-163 | when the provider never replies null, every sample gives a point |
| `WeatherAwareRouting.ClearSamples` | src/main/java/com/gpstracker/service/weather/WeatherAwareRoutingService.java:273-281 | with the shipped classification every sampled point is clear, severity 0 |
| `WeatherAwareRouting.ClearRiskIsZero` | src/main/java/com/gpstracker/service/weather/WeatherAwareRoutingService.java:78-101 | clear points carry risk 0 |
| `WeatherAwareRouting.GridSizeExact` | src/main/java/com/gpstracker/service/weather/WeatherAwareRoutingService.java:115-130 | the number of 30-minute departures strictly before the end of the window is the number of loop rounds |
| `WeatherAwareRouting.ScanLength` | src/main/java/com/gpstracker/service/weather/WeatherAwareRoutingService.java:116-130 | one risk per grid departure |
| `WeatherAwareRouting.ClearScanIsRiskFree` | src/main/java/com/gpstracker/service/weather/WeatherAwareRoutingService.java:112-133 | with the shipped classification every grid departure has risk 0 |
| `WeatherAwareRouting.FirstMinIndex` | src/main/java/com/gpstracker/service/weather/WeatherAwareRoutingService.java:124-127 | the kept index lies in range |
| `WeatherAwareRouting.FirstMinimum` | src/main/java/com/gpstracker/service/weather/WeatherAwareRoutingService.java:113-127 | the kept risk is no higher than any risk seen, and every earlier risk is strictly higher |
| `WeatherAwareRouting.OptimalDepartureInWindow` | src/main/java/com/gpstracker/service/weather/WeatherAwareRoutingService.java:106-133 | an empty window returns its start; otherwise the result is `start + 30k` inside the window, with a risk no grid departure beats and the earliest such |
| `WeatherAwareRouting.UniformRiskPicksStart` | src/main/java/com/gpstracker/service/weather/WeatherAwareRoutingService.java:112-132 | when every departure has the same risk, the start of the window is returned |
| `WeatherAwareRouting.SearchStep` | src/main/java/com/gpstracker/service/weather/WeatherAwareRoutingService.java:123-127 | one round with the strict `<` keeps the best time and the lowest risk equal to the first minimum of the risks seen |
| `WeatherAwareRouting.WeatherAwareRoutingService.constructor` | src/main/java/com/gpstracker/service/weather/WeatherAwareRoutingService.java:23 | the cache starts empty |
| `WeatherAwareRouting.WeatherAwareRoutingService.GetWeatherForecast` | src/main/java/com/gpstracker/service/weather/WeatherAwareRoutingService.java:54-73 | the forecast returned and the cache left are those of the cache specification |
| `WeatherAwareRouting.WeatherAwareRoutingService.GetWeatherAlongRoute` | src/main/java/com/gpstracker/service/weather/WeatherAwareRoutingService.java:142-166 | the points and the cache are those of the 11 lookups in order, null replies skipped |
| `WeatherAwareRouting.WeatherAwareRoutingService.SampleAt` | src/main/java/com/gpstracker/service/weather/WeatherAwareRoutingService.java:151-162 | one sample gives the point of its forecast, or none, and the cache that lookup left |
| `WeatherAwareRouting.WeatherAwareRoutingService.SuggestOptimalDepartureTime` | src/main/java/com/gpstracker/service/weather/WeatherAwareRoutingService.java:106-133 | the loop returns the first least-risk grid departure of the risks it scanned, never before the start, inside the window unless it is the start, on the 30-minute grid |
| `WeatherAwareRouting.WeatherAwareRoutingService.RiskAt` | src/main/java/com/gpstracker/service/weather/WeatherAwareRoutingService.java:117-123 | one round's risk is the risk of the sampled route |
| `WeatherAwareRouting.WeatherAwareRoutingService.CalculateRoute` | src/main/java/com/gpstracker/service/weather/WeatherAwareRoutingService.java:29-49 | the route has 21 points from start to end; point `i` is the straight line's at `i/20` of the way when the risk is at most 0.5, and each interior point is detoured from its nearest sampled weather when the risk exceeds 0.5; only interior points whose nearest weather is severe or a storm move; it carries the sampled points and their risk, and lists the advisory of every prevalent condition, no other text and none twice |
| `FleetModel.TimeSlotScore` | src/main/java/com/gpstracker/service/scheduling/SmartSchedulingService.java:186-205 | the score is never negative |
| `FleetModel.MissingStatusIsNoPenalty` | src/main/java/com/gpstracker/service/scheduling/SmartSchedulingService.java:198-202 | a vehicle without a status scores as one with a full tank and no urgency |
| `FleetModel.ScoreRange` | src/main/java/com/gpstracker/service/scheduling/SmartSchedulingService.java:186-205 | for inputs in [0, 1] the score lies in [45, 100], and it is 100 iff nothing is penalised |
| `FleetModel.ScoreMonotone` | src/main/java/com/gpstracker/service/scheduling/SmartSchedulingService.java:186-205 | more risk, less fuel or more urgency never raises the score |
| `FleetModel.ScoreFloor` | src/main/java/com/gpstracker/service/scheduling/SmartSchedulingService.java:204 | penalties of 100 or more give exactly 0 |
| `FleetModel.FuelEfficiency` | src/main/java/com/gpstracker/service/scheduling/SmartSchedulingService.java:207-215 | efficiency lies in [0.8, 1] for a risk in [0, 1], and it is 1 iff the risk is 0 |
| `FleetModel.FuelEfficiencyAntitone` | src/main/java/com/gpstracker/service/scheduling/SmartSchedulingService.java:207-215 | riskier routes are never more efficient |
| `SlotSearch.EvaluateSound` | src/main/java/com/gpstracker/service/scheduling/SmartSchedulingService.java:103-134 | a vehicle yields no candidate iff it is busy past the deadline, or its maintenance is due at its start, or no driver is free at the optimal departure; any candidate it yields is eligible |
| `SlotSearch.SearchedStep` | src/main/java/com/gpstracker/service/scheduling/SmartSchedulingService.java:103-135 | one more vehicle tried from the state the search reached extends the search by its evaluation |
| `SlotSearch.SearchedSound` | src/main/java/com/gpstracker/service/scheduling/SmartSchedulingService.java:103-135 | the search records one evaluation per vehicle, and every candidate is eligible for its vehicle |
| `SlotSearch.SearchedSoundStep` | src/main/java/com/gpstracker/service/scheduling/SmartSchedulingService.java:103-135 | one more vehicle keeps every candidate eligible |
| `SlotSearch.BestIndex` | src/main/java/com/gpstracker/service/scheduling/SmartSchedulingService.java:126-134 | the kept position holds a candidate |
| `SlotSearch.BestIsFirstMaximum` | src/main/java/com/gpstracker/service/scheduling/SmartSchedulingService.java:101-134 | the kept candidate scores above `Double.MIN_VALUE`; none scores higher, and every earlier one scores strictly lower, so the first of equal scores wins; nothing is kept iff no candidate scores above `Double.MIN_VALUE` |
| `SlotSearch.ZeroScoreNeverSelected` | src/main/java/com/gpstracker/service/scheduling/SmartSchedulingService.java:101 | a candidate scoring no more than `Double.MIN_VALUE` (0 included) is never the one kept, and when it is the only candidate nothing is selected |
| `SlotSearch.SelectedIsEligible` | src/main/java/com/gpstracker/service/scheduling/SmartSchedulingService.java:99-137 | a selected slot belongs to a listed vehicle and passed every check for it |
| `SlotSearch.SelectionStep` | src/main/java/com/gpstracker/service/scheduling/SmartSchedulingService.java:126-134 | the strict `>` update keeps the best slot and score equal to the selection over the evaluations seen |
| `Schedule.FirstMinTask` | src/main/java/com/gpstracker/service/scheduling/SmartSchedulingService.java:47 | the polled position lies in the queue |
| `Schedule.PollIsMinimal` | src/main/java/com/gpstracker/service/scheduling/SmartSchedulingService.java:36-47 | the polled task comes first in (priority, deadline) order, and every task before it in the queue comes strictly later |
| `Schedule.Remove` | src/main/java/com/gpstracker/service/scheduling/SmartSchedulingService.java:47 | a poll removes exactly the polled task |
| `Schedule.PlanShape` | src/main/java/com/gpstracker/service/scheduling/SmartSchedulingService.java:54-66 | each vehicle's list is exactly its placed outcomes in dequeue order; the vehicles with lists are those with an availability; each availability is the end of its list's last slot |
| `Schedule.PlanKeys` | src/main/java/com/gpstracker/service/scheduling/SmartSchedulingService.java:59-63 | a vehicle gets a list iff it gets an availability |
| `Schedule.PlanIsPlacedOn` | src/main/java/com/gpstracker/service/scheduling/SmartSchedulingService.java:59-60 | a vehicle's list is its placed outcomes, never empty once created |
| `Schedule.PlanLastEnd` | src/main/java/com/gpstracker/service/scheduling/SmartSchedulingService.java:59-63 | a vehicle's availability equals the end of the last slot in its list |
| `Schedule.PlanShapeStep` | src/main/java/com/gpstracker/service/scheduling/SmartSchedulingService.java:59-63 | a placement appends to its vehicle's list, moves its availability to the slot end, and changes no other vehicle |
| `Schedule.UnplacedChangesNothing` | src/main/java/com/gpstracker/service/scheduling/SmartSchedulingService.java:64-66 | a task without a slot changes no list and no availability |
| `Schedule.QueueAfter` | src/main/java/com/gpstracker/service/scheduling/SmartSchedulingService.java:46-47 | each poll shortens the queue by one |
| `Schedule.PollOrder` | src/main/java/com/gpstracker/service/scheduling/SmartSchedulingService.java:46-47 | `n` polls give `n` tasks |
| `Schedule.PollKeepsDiscipline` | src/main/java/com/gpstracker/service/scheduling/SmartSchedulingService.java:36-47 | a poll keeps the polled tasks sorted, never after a queued task, and together with the queue a permutation of the input |
| `Schedule.PolledSortsLast` | src/main/java/com/gpstracker/service/scheduling/SmartSchedulingService.java:47 | appending a task no later than every queued task keeps the polled tasks sorted |
| `Schedule.RestIsFromQueue` | src/main/java/com/gpstracker/service/scheduling/SmartSchedulingService.java:47 | a poll adds nothing to the queue |
| `Schedule.DequeueOrder` | src/main/java/com/gpstracker/service/scheduling/SmartSchedulingService.java:36-47 | after any number of polls the queue discipline holds |
| `Schedule.EveryTaskPolledOnce` | src/main/java/com/gpstracker/service/scheduling/SmartSchedulingService.java:36-47 | draining the queue yields every task exactly once, in non-decreasing (priority, deadline) order |
| `Schedule.Turn` | src/main/java/com/gpstracker/service/scheduling/SmartSchedulingService.java:47-66 | a turn decides the task it was given |
| `Schedule.NthTurn` | src/main/java/com/gpstracker/service/scheduling/SmartSchedulingService.java:46-66 | turn `n` decides the `n`-th polled task |
| `Schedule.Extended` | src/main/java/com/gpstracker/service/scheduling/SmartSchedulingService.java:46-67 | one more turn gives one more outcome |
| `Schedule.Ran` | src/main/java/com/gpstracker/service/scheduling/SmartSchedulingService.java:46-67 | `n` turns give `n` outcomes |
| `Schedule.RanStep` | src/main/java/com/gpstracker/service/scheduling/SmartSchedulingService.java:46-67 | a turn on the next polled task from the state the run reached extends the run by its outcome and cache |
| `Schedule.RanFollowsPollOrder` | src/main/java/com/gpstracker/service/scheduling/SmartSchedulingService.java:46-47 | the run's outcomes are for the tasks in poll order |
| `Schedule.RunDequeuesEachTaskOnce` | src/main/java/com/gpstracker/service/scheduling/SmartSchedulingService.java:36-67 | a complete run decides each input task exactly once, in non-decreasing (priority, deadline) order |
| `Schedule.DequeuedExtends` | src/main/java/com/gpstracker/service/scheduling/SmartSchedulingService.java:46-47 | outcomes in poll order, extended by the next polled task, stay in poll order |
| `Schedule.RanOutcomes` | src/main/java/com/gpstracker/service/scheduling/SmartSchedulingService.java:46-67 | a run of `n` turns extends the run of `n - 1`, for the task polled last |
| `Schedule.TurnPlacesWell` | src/main/java/com/gpstracker/service/scheduling/SmartSchedulingService.java:50-63 | a placed task's slot passed every check against the availability at that time |
| `Schedule.RanPlacesWell` | src/main/java/com/gpstracker/service/scheduling/SmartSchedulingService.java:46-67 | every placement of the run passed every check when it was made |
| `Schedule.RanPlacesWellStep` | src/main/java/com/gpstracker/service/scheduling/SmartSchedulingService.java:46-67 | one more turn keeps every placement well made |
| `Schedule.NthTurnPlacesWell` | src/main/java/com/gpstracker/service/scheduling/SmartSchedulingService.java:50-63 | turn `n`'s placement passed every check against the first `n` outcomes |
| `Schedule.PlacedWellIsChained` | src/main/java/com/gpstracker/service/scheduling/SmartSchedulingService.java:104-132 | well-made placements chain each vehicle's list: it starts no earlier than the run, and each slot starts no earlier than the previous one ends |
| `Schedule.ChainExtend` | src/main/java/com/gpstracker/service/scheduling/SmartSchedulingService.java:59-63 | appending a slot that starts once its vehicle is free keeps the lists chained |
| `Schedule.NoOverlap` | src/main/java/com/gpstracker/service/scheduling/SmartSchedulingService.java:104-132 | the lists of a complete run are chained |
| `SmartScheduling.MirrorsExtend` | src/main/java/com/gpstracker/service/scheduling/SmartSchedulingService.java:59-60 | appending a scheduled task and the outcome it carries out keeps the service's lists in step with the plan |
| `SmartScheduling.MirroredChainIsNonOverlapping` | src/main/java/com/gpstracker/service/scheduling/SmartSchedulingService.java:54-66 | lists in step with a chained plan never overlap |
| `SmartScheduling.RunScheduleNeverOverlaps` | src/main/java/com/gpstracker/service/scheduling/SmartSchedulingService.java:104-132 | the schedule of a complete run never overlaps: each vehicle's first task starts no earlier than the run, and each later one no earlier than the previous one ends |
| `SmartScheduling.SmartSchedulingService.constructor` | src/main/java/com/gpstracker/service/scheduling/SmartSchedulingService.java:19-24 | the service starts with no maintenance plans and no statuses |
| `SmartScheduling.SmartSchedulingService.GenerateSchedule` | src/main/java/com/gpstracker/service/scheduling/SmartSchedulingService.java:29-70 | the loop builds, list by list, the scheduled tasks of the greedy run `Ran` over all tasks, each carrying out its placement with the weather-aware route, risk and advisories of the weather sampled for it; it keeps the fleet id and leaves the run's cache |
| `SmartScheduling.SmartSchedulingService.PlaceTask` | src/main/java/com/gpstracker/service/scheduling/SmartSchedulingService.java:47-63 | one loop round is the run's next turn: a scheduled task exactly when the task is placed, carrying out the placement with the route computed from the weather sampled for it (its risk, points and advisories) |
| `SmartScheduling.SmartSchedulingService.ScheduleVehicleMaintenance` | src/main/java/com/gpstracker/service/scheduling/SmartSchedulingService.java:75-77 | the plan is stored under the vehicle, and nothing else changes |
| `SmartScheduling.SmartSchedulingService.UpdateVehicleStatus` | src/main/java/com/gpstracker/service/scheduling/SmartSchedulingService.java:82-89 | a status with the current urgency is stored under the vehicle; when the urgency throws, the exception propagates and nothing is stored |
| `SmartScheduling.SmartSchedulingService.FindOptimalTimeSlot` | src/main/java/com/gpstracker/service/scheduling/SmartSchedulingService.java:93-138 | the loop returns the selection over the evaluations of the listed vehicles, and leaves the search's cache |
| `SmartScheduling.SmartSchedulingService.TrySlot` | src/main/java/com/gpstracker/service/scheduling/SmartSchedulingService.java:103-134 | one round's candidate and cache are those of the vehicle's evaluation |
| `SmartScheduling.SmartSchedulingService.CreateScheduledTask` | src/main/java/com/gpstracker/service/scheduling/SmartSchedulingService.java:140-152 | the scheduled task copies the task's id, origin and destination and the slot's vehicle and times; its route is the weather-aware route for the weather sampled at the slot: its risk, the matching fuel efficiency, its 21 points as locations, and the advisory of every prevalent condition, no other text and none twice |
| `SmartScheduling.SmartSchedulingService.CalculateOptimalRoute` | src/main/java/com/gpstracker/service/scheduling/SmartSchedulingService.java:154-174 | the route's 21 locations are the weather-aware route's points from origin to destination (straight, or with interior points detoured when the risk exceeds 0.5); it has the sampled risk, the task's duration, the matching fuel efficiency, and the advisory of every prevalent condition, no other text and none twice |
| `SmartScheduling.SmartSchedulingService.CalculateTimeSlotScore` | src/main/java/com/gpstracker/service/scheduling/SmartSchedulingService.java:186-205 | the score is the slot score of the sampled route risk and the vehicle's stored status |
| `SmartScheduling.SmartSchedulingService.CalculateMaintenanceUrgency` | src/main/java/com/gpstracker/service/scheduling/SmartSchedulingService.java:217-222 | a vehicle with no plan has urgency 0; urgency is never above 1; it throws iff the stored interval is under an hour |

## Left out

- Floating point: doubles are exact reals. Rounding, NaN and infinities are not modelled.
- 64-bit overflow of `long` minutes and hours is not modelled.
- The clock `LocalDateTime.now()` is a parameter `now`, fixed for one call of a service operation.
- The OpenWeatherMap request is an abstract `fetch(lat, lon, now)` returning a forecast or `None`. The URL and the API key are not modelled.
- A request that throws is not modelled: `getForObject` may raise `RestClientException`, which nothing catches, so it would end `calculateRoute`, `findOptimalTimeSlot` and `generateSchedule`. The model has no such path.
- LookupIdempotent: `fetch` is a deterministic function of the coordinates and `now`, so a lookup whose request gave no reply gives none again within the same operation. The service would send the request again and might get a reply.
- The cache key `String.format("%.4f_%.4f", …)` is an abstract function of the coordinates.
- Concurrency: `ConcurrentHashMap` is modelled as a sequential map.
- The haversine distance and the `atan2`/`sin`/`cos` offset of a detoured point are uninterpreted parameters.
- `getWeatherCondition` and `getWeatherSeverity` are parameters. The shipped stubs (every forecast clear, severity 0) appear as the `ClassifiesAllClear` hypothesis.
- `getAvailableVehicles` and `findAvailableDriver` are parameters. The shipped stubs return no vehicles and no driver, so every schedule of the shipped code is empty.
- Advisory order: the service lists advisories in `HashMap` iteration order. The model picks any order; its contracts are about which advisories appear, not their order.
- Tie order of the priority queue: `PriorityQueue` does not fix which of two equally urgent tasks is polled first. The model polls the first such task in the remaining list, and the properties of the run are proved for this tie order only.
- Logging of unschedulable tasks is left out.
- `GpsData` keeps only its identifying fields: the scheduler stores it and never reads it.
- The unused `endTime` argument of `generateSchedule` and `findOptimalTimeSlot` is kept and ignored, as in the service. The same holds for the unused departure `time` of `getWeatherAlongRoute`. A slot may therefore end after the task's deadline or after the run's end.
- The bodies of four service loops are extracted into helper methods, each called once per round: `PlaceTask` for `generateSchedule`, `TrySlot` for `findOptimalTimeSlot`, `SampleAt` for `getWeatherAlongRoute` and `RiskAt` for `suggestOptimalDepartureTime`. `SmartScheduling.SmartSchedulingService.PlaceTask` groups lines 50-63 of one round of `generateSchedule`.
