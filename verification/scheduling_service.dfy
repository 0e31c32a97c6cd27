/** The scheduling service: the maintenance plans and vehicle statuses it
    keeps, and the greedy run that assigns delivery tasks to vehicles,
    consulting the weather-aware routing service for departures and
    routes. */
module SmartScheduling {
  import opened Common
  import opened WeatherRisk
  import opened WeatherAwareRouting
  import opened Maintenance
  import opened FleetModel
  import opened SlotSearch
  import opened Schedule

  /** The locations of a route are the points of the weather-aware route
      from `origin` to `destination` for the sampled `weather`. */
  ghost predicate FollowsWeatherRoute(locations: seq<Location>, geo: Geometry, origin: Location,
                                      destination: Location, weather: seq<WeatherPoint>) {
    && |locations| == BASE_ROUTE_STEPS + 1
    && forall i :: 0 <= i < |locations| ==>
         var p := RoutedPoint(geo, origin.lat, origin.lon, destination.lat, destination.lon, weather, i);
         locations[i] == Location(p.lat, p.lon)
  }

  /** A scheduled task carries out a placed outcome: it copies the task's id
      and places and the slot's vehicle and times, and its route has the
      risk of the sampled weather, the task's duration, the matching fuel
      efficiency, the 21 points of the weather-aware route from the origin
      to the destination, and the advice for the prevalent conditions. */
  ghost predicate Realizes(st: ScheduledTask, o: Outcome, geo: Geometry) {
    && o.Placed?
    && st.taskId == o.task.id
    && st.vehicleId == o.slot.vehicleId
    && st.startTime == o.slot.startTime
    && st.endTime == o.slot.endTime
    && st.origin == o.task.origin
    && st.destination == o.task.destination
    && st.route.riskScore == RiskScore(o.weather)
    && st.route.estimatedDuration == o.task.estimatedDuration
    && st.route.fuelEfficiency == FuelEfficiency(RiskScore(o.weather))
    && FollowsWeatherRoute(st.route.points, geo, o.task.origin, o.task.destination, o.weather)
    && st.route.points[0] == o.task.origin
    && st.route.points[BASE_ROUTE_STEPS] == o.task.destination
    && AdvisesPrevalent(st.route.advisories, o.weather)
  }

  /** The service's lists hold, position by position, the scheduled tasks
      carrying out the planned outcomes. */
  ghost predicate Mirrors(assignments: map<string, seq<ScheduledTask>>, plan: map<string, seq<Outcome>>, geo: Geometry) {
    && assignments.Keys == plan.Keys
    && forall v :: v in plan ==>
         && |assignments[v]| == |plan[v]|
         && forall i :: 0 <= i < |plan[v]| ==> Realizes(assignments[v][i], plan[v][i], geo)
  }

  /** Appending a scheduled task and its outcome to the same vehicle keeps
      the lists in step. */
  lemma MirrorsExtend(assignments: map<string, seq<ScheduledTask>>, plan: map<string, seq<Outcome>>,
                      st: ScheduledTask, o: Outcome, geo: Geometry)
    requires Mirrors(assignments, plan, geo)
    requires Realizes(st, o, geo)
    ensures var v := o.slot.vehicleId;
      Mirrors(assignments[v := (if v in assignments then assignments[v] else []) + [st]],
              plan[v := (if v in plan then plan[v] else []) + [o]], geo)
  {
    var v := o.slot.vehicleId;
    var list := if v in assignments then assignments[v] else [];
    var planned := if v in plan then plan[v] else [];
    forall i | 0 <= i < |planned| + 1
      ensures Realizes((list + [st])[i], (planned + [o])[i], geo)
    {
      if i < |planned| {
        assert (list + [st])[i] == list[i] && (planned + [o])[i] == planned[i];
      }
    }
  }

  /** The scheduled tasks of one vehicle never overlap: the vehicle's
      first task starts no earlier than the run, and each later one no
      earlier than the previous one ends. */
  predicate NonOverlapping(assignments: map<string, seq<ScheduledTask>>, startTime: int) {
    forall v :: v in assignments ==>
      && assignments[v] != []
      && (forall i :: 0 <= i < |assignments[v]| ==> assignments[v][i].vehicleId == v)
      && assignments[v][0].startTime >= startTime
      && forall i :: 0 < i < |assignments[v]| ==> assignments[v][i - 1].endTime <= assignments[v][i].startTime
  }

  /** Lists in step with a chained plan do not overlap. */
  lemma MirroredChainIsNonOverlapping(assignments: map<string, seq<ScheduledTask>>,
                                      plan: map<string, seq<Outcome>>, startTime: int, geo: Geometry)
    requires Mirrors(assignments, plan, geo) && Chained(plan, startTime)
    ensures NonOverlapping(assignments, startTime)
  {
    forall v | v in assignments
      ensures assignments[v] != []
      ensures forall i :: 0 <= i < |assignments[v]| ==> assignments[v][i].vehicleId == v
      ensures assignments[v][0].startTime >= startTime
      ensures forall i :: 0 < i < |assignments[v]| ==> assignments[v][i - 1].endTime <= assignments[v][i].startTime
    {
      assert Realizes(assignments[v][0], plan[v][0], geo);
      forall i | 0 < i < |assignments[v]|
        ensures assignments[v][i - 1].endTime <= assignments[v][i].startTime
      {
        assert Realizes(assignments[v][i - 1], plan[v][i - 1], geo);
        assert Realizes(assignments[v][i], plan[v][i], geo);
      }
    }
  }

  /** Lists in step with a complete run never overlap. */
  lemma RunScheduleNeverOverlaps(assignments: map<string, seq<ScheduledTask>>, tasks: seq<DeliveryTask>,
                                 cache: Cache, startTime: int, maintenance: map<string, MaintenanceSchedule>,
                                 statuses: map<string, VehicleStatus>, svc: Services)
    requires Mirrors(assignments, PlanOf(Ran(tasks, cache, |tasks|, startTime, maintenance, statuses, svc).outcomes), svc.weather.geo)
    ensures NonOverlapping(assignments, startTime)
  {
    var plan := PlanOf(Ran(tasks, cache, |tasks|, startTime, maintenance, statuses, svc).outcomes);
    NoOverlap(tasks, cache, startTime, maintenance, statuses, svc);
    MirroredChainIsNonOverlapping(assignments, plan, startTime, svc.weather.geo);
  }

  class SmartSchedulingService {
    const weatherService: WeatherAwareRoutingService
    var maintenanceSchedules: map<string, MaintenanceSchedule>
    var vehicleStatuses: map<string, VehicleStatus>

    constructor (weatherService: WeatherAwareRoutingService)
      ensures this.weatherService == weatherService
      ensures maintenanceSchedules == map[] && vehicleStatuses == map[]
    {
      this.weatherService := weatherService;
      maintenanceSchedules := map[];
      vehicleStatuses := map[];
    }

    /** Greedy assignment of the tasks, most urgent first. `endTime` is
        accepted but never consulted, as in the service. */
    method GenerateSchedule(fleetId: string, startTime: int, endTime: int, tasks: seq<DeliveryTask>, svc: Services)
      returns (schedule: FleetSchedule)
      modifies weatherService
      ensures var run := Ran(tasks, old(weatherService.weatherCache), |tasks|, startTime, maintenanceSchedules, vehicleStatuses, svc);
        && weatherService.weatherCache == run.cache
        && schedule.fleetId == fleetId
        && Mirrors(schedule.vehicleAssignments, PlanOf(run.outcomes), svc.weather.geo)
    {
      var prioritizedTasks := tasks;
      var vehicleAssignments: map<string, seq<ScheduledTask>> := map[];
      var vehicleAvailability: map<string, int> := map[];
      ghost var outcomes: seq<Outcome> := [];
      ghost var cache := weatherService.weatherCache;
      while prioritizedTasks != []
        invariant |outcomes| <= |tasks|
        invariant prioritizedTasks == QueueAfter(tasks, |outcomes|)
        invariant Run(outcomes, weatherService.weatherCache)
               == Ran(tasks, cache, |outcomes|, startTime, maintenanceSchedules, vehicleStatuses, svc)
        invariant vehicleAvailability == AvailabilityOf(outcomes)
        invariant Mirrors(vehicleAssignments, PlanOf(outcomes), svc.weather.geo)
        decreases |prioritizedTasks|
      {
        var k := FirstMinTask(prioritizedTasks);
        var task := prioritizedTasks[k];
        prioritizedTasks := Remove(prioritizedTasks, k);
        assert task == PolledAt(tasks, |outcomes|);
        var scheduled, o := PlaceTask(task, startTime, endTime, vehicleAvailability, svc, tasks, cache, outcomes);
        if scheduled.Some? {
          var st := scheduled.value;
          MirrorsExtend(vehicleAssignments, PlanOf(outcomes), st, o, svc.weather.geo);
          PlanShapeStep(outcomes, o);
          vehicleAssignments := vehicleAssignments[st.vehicleId := (if st.vehicleId in vehicleAssignments then vehicleAssignments[st.vehicleId] else []) + [st]];
          vehicleAvailability := vehicleAvailability[st.vehicleId := st.endTime];
        } else {
          UnplacedChangesNothing(outcomes, o.task);
        }
        outcomes := outcomes + [o];
      }
      assert |outcomes| == |tasks|;
      schedule := FleetSchedule(fleetId, vehicleAssignments);
    }

    /** One turn of the run, taken after the first `|outcomes|` ones: the
        best slot for the polled task and, when there is one, the scheduled
        task that takes it. */
    method PlaceTask(task: DeliveryTask, startTime: int, endTime: int, vehicleAvailability: map<string, int>,
                     svc: Services, ghost tasks: seq<DeliveryTask>, ghost cache: Cache, ghost outcomes: seq<Outcome>)
      returns (scheduled: Option<ScheduledTask>, ghost outcome: Outcome)
      requires |outcomes| < |tasks| && task == PolledAt(tasks, |outcomes|)
      requires Run(outcomes, weatherService.weatherCache)
            == Ran(tasks, cache, |outcomes|, startTime, maintenanceSchedules, vehicleStatuses, svc)
      requires vehicleAvailability == AvailabilityOf(outcomes)
      modifies weatherService
      ensures Run(outcomes + [outcome], weatherService.weatherCache)
           == Ran(tasks, cache, |outcomes| + 1, startTime, maintenanceSchedules, vehicleStatuses, svc)
      ensures scheduled.Some? <==> outcome.Placed?
      ensures scheduled.Some? ==> Realizes(scheduled.value, outcome, svc.weather.geo)
    {
      ghost var before := weatherService.weatherCache;
      var bestSlot := FindOptimalTimeSlot(task, startTime, endTime, vehicleAvailability, svc);
      if bestSlot.Some? {
        ghost var o, d := task.origin, task.destination;
        ghost var w := Sampled(weatherService.weatherCache, o.lat, o.lon, d.lat, d.lon, SampleCount(), svc.now, svc.weather);
        var scheduledTask := CreateScheduledTask(task, bestSlot.value, svc);
        scheduled := Some(scheduledTask);
        outcome := Placed(task, bestSlot.value, w.points);
      } else {
        scheduled := None;
        outcome := Unplaced(task);
      }
      RanStep(tasks, cache, |outcomes|, startTime, maintenanceSchedules, vehicleStatuses, svc,
              outcomes, before, Turned(outcome, weatherService.weatherCache));
    }

    method ScheduleVehicleMaintenance(vehicleId: string, schedule: MaintenanceSchedule)
      modifies this
      ensures maintenanceSchedules == old(maintenanceSchedules)[vehicleId := schedule]
      ensures vehicleStatuses == old(vehicleStatuses)
    {
      maintenanceSchedules := maintenanceSchedules[vehicleId := schedule];
    }

    /** Store a fresh status with the current maintenance urgency; when the
        urgency throws, the exception propagates and nothing is stored. */
    method UpdateVehicleStatus(vehicleId: string, lastLocation: GpsData, fuelLevel: real, now: int)
      returns (thrown: Option<JavaError>)
      modifies this
      ensures maintenanceSchedules == old(maintenanceSchedules)
      ensures var urgency := old(CalculateMaintenanceUrgency(vehicleId, now));
        && (urgency.Ok? ==>
              thrown == None && vehicleStatuses == old(vehicleStatuses)[vehicleId := VehicleStatus(vehicleId, lastLocation, fuelLevel, urgency.value)])
        && (urgency.Err? ==> thrown == Some(urgency.error) && vehicleStatuses == old(vehicleStatuses))
    {
      var urgency := CalculateMaintenanceUrgency(vehicleId, now);
      if urgency.Err? {
        return Some(urgency.error);
      }
      vehicleStatuses := vehicleStatuses[vehicleId := VehicleStatus(vehicleId, lastLocation, fuelLevel, urgency.value)];
      thrown := None;
    }

    /** The best slot over the vehicles able to carry the task. */
    method FindOptimalTimeSlot(task: DeliveryTask, startTime: int, endTime: int,
                               vehicleAvailability: map<string, int>, svc: Services)
      returns (bestSlot: Option<VehicleTimeSlot>)
      modifies weatherService
      ensures var search := SearchAll(old(weatherService.weatherCache), task, startTime, vehicleAvailability,
                                      maintenanceSchedules, vehicleStatuses, svc);
        bestSlot == Selected(search.evaluations) && weatherService.weatherCache == search.cache
    {
      var availableVehicles := svc.fleet.availableVehicles(task.requiredCapacity);
      bestSlot := None;
      var bestScore := DOUBLE_MIN_VALUE;
      ghost var seen: seq<Option<Candidate>> := [];
      assert BestIndex(seen) == None;
      for i := 0 to |availableVehicles|
        invariant Search(seen, weatherService.weatherCache)
               == Searched(old(weatherService.weatherCache), task, availableVehicles, i, startTime,
                           vehicleAvailability, maintenanceSchedules, vehicleStatuses, svc)
        invariant SelectionState(seen, bestSlot, bestScore)
      {
        ghost var before := weatherService.weatherCache;
        var candidate := TrySlot(task, availableVehicles[i], startTime, vehicleAvailability, svc);
        SearchedStep(old(weatherService.weatherCache), task, availableVehicles, i, startTime, vehicleAvailability,
                     maintenanceSchedules, vehicleStatuses, svc, seen, before, Evaluated(candidate, weatherService.weatherCache));
        SelectionStep(seen, bestSlot, bestScore, candidate);
        if candidate.Some? && candidate.value.score > bestScore {
          bestScore := candidate.value.score;
          bestSlot := Some(candidate.value.slot);
        }
        seen := seen + [candidate];
      }
    }

    /** The body of the search loop for one vehicle: the three rejections,
        the weather-optimal departure and the slot's score. */
    method TrySlot(task: DeliveryTask, vehicleId: string, startTime: int,
                   vehicleAvailability: map<string, int>, svc: Services)
      returns (candidate: Option<Candidate>)
      modifies weatherService
      ensures Evaluated(candidate, weatherService.weatherCache)
           == Evaluate(old(weatherService.weatherCache), task, vehicleId, startTime, vehicleAvailability,
                       maintenanceSchedules, vehicleStatuses, svc)
    {
      ghost var cache := weatherService.weatherCache;
      ghost var evaluated := Evaluate(cache, task, vehicleId, startTime, vehicleAvailability,
                                      maintenanceSchedules, vehicleStatuses, svc);
      var vehicleStartTime := if vehicleId in vehicleAvailability then vehicleAvailability[vehicleId] else startTime;
      assert vehicleStartTime == StartOf(vehicleAvailability, vehicleId, startTime);
      if vehicleStartTime > task.deadline {
        return None;
      }
      if vehicleId in maintenanceSchedules && maintenanceSchedules[vehicleId].IsMaintenanceDue(vehicleStartTime) {
        return None;
      }
      var o, d := task.origin, task.destination;
      var optimalDeparture := weatherService.SuggestOptimalDepartureTime(
        o.lat, o.lon, d.lat, d.lon, vehicleStartTime, task.deadline, svc.now, svc.weather);
      ghost var offered := Offered(weatherService.weatherCache, task, vehicleId, optimalDeparture, vehicleStatuses, svc);
      assert evaluated == offered;
      var assignedDriver := svc.fleet.findAvailableDriver(vehicleId, optimalDeparture, task.estimatedDuration);
      if assignedDriver.None? {
        return None;
      }
      ghost var w := Sampled(weatherService.weatherCache, o.lat, o.lon, d.lat, d.lon, SampleCount(), svc.now, svc.weather);
      var score := CalculateTimeSlotScore(vehicleId, optimalDeparture, task, svc);
      var slot := VehicleTimeSlot(vehicleId, assignedDriver.value, optimalDeparture, optimalDeparture + task.estimatedDuration);
      candidate := Some(Candidate(slot, score));
      assert offered == Evaluated(candidate, w.cache);
    }

    /** The scheduled task for a slot, with the weather-aware route at the
        slot's start. */
    method CreateScheduledTask(task: DeliveryTask, slot: VehicleTimeSlot, svc: Services)
      returns (scheduledTask: ScheduledTask)
      modifies weatherService
      ensures var s := Sampled(old(weatherService.weatherCache), task.origin.lat, task.origin.lon,
                               task.destination.lat, task.destination.lon, SampleCount(), svc.now, svc.weather);
        && weatherService.weatherCache == s.cache
        && Realizes(scheduledTask, Placed(task, slot, s.points), svc.weather.geo)
    {
      var route := CalculateOptimalRoute(task, slot, svc);
      scheduledTask := ScheduledTask(task.id, slot.vehicleId, slot.startTime, slot.endTime,
                                     task.origin, task.destination, route);
    }

    /** The weather-aware route, its points as locations. */
    method CalculateOptimalRoute(task: DeliveryTask, slot: VehicleTimeSlot, svc: Services)
      returns (route: Route)
      modifies weatherService
      ensures var s := Sampled(old(weatherService.weatherCache), task.origin.lat, task.origin.lon,
                               task.destination.lat, task.destination.lon, SampleCount(), svc.now, svc.weather);
        && weatherService.weatherCache == s.cache
        && route.riskScore == RiskScore(s.points)
        && route.estimatedDuration == task.estimatedDuration
        && route.fuelEfficiency == FuelEfficiency(route.riskScore)
        && FollowsWeatherRoute(route.points, svc.weather.geo, task.origin, task.destination, s.points)
        && route.points[0] == task.origin
        && route.points[BASE_ROUTE_STEPS] == task.destination
        && AdvisesPrevalent(route.advisories, s.points)
    {
      var weatherRoute := weatherService.CalculateRoute(
        task.origin.lat, task.origin.lon, task.destination.lat, task.destination.lon,
        slot.startTime, svc.now, svc.weather);
      var points := seq(|weatherRoute.route|, i requires 0 <= i < |weatherRoute.route| =>
        Location(weatherRoute.route[i].lat, weatherRoute.route[i].lon));
      route := Route(points, weatherRoute.advisories, weatherRoute.riskScore, task.estimatedDuration,
                     FuelEfficiency(weatherRoute.riskScore));
    }

    /** The score of a departure for a vehicle, from the route's weather risk
        and the vehicle's stored status. */
    method CalculateTimeSlotScore(vehicleId: string, startTime: int, task: DeliveryTask, svc: Services)
      returns (score: real)
      modifies weatherService
      ensures var s := Sampled(old(weatherService.weatherCache), task.origin.lat, task.origin.lon,
                               task.destination.lat, task.destination.lon, SampleCount(), svc.now, svc.weather);
        && weatherService.weatherCache == s.cache
        && score == TimeSlotScore(RiskScore(s.points), StatusOf(vehicleStatuses, vehicleId))
    {
      score := BASE_SCORE;
      var weatherRoute := weatherService.CalculateRoute(
        task.origin.lat, task.origin.lon, task.destination.lat, task.destination.lon,
        startTime, svc.now, svc.weather);
      score := score - weatherRoute.riskScore * RISK_PENALTY;
      if vehicleId in vehicleStatuses {
        var status := vehicleStatuses[vehicleId];
        score := score - (1.0 - status.fuelLevel) * FUEL_PENALTY;
        score := score - status.maintenanceUrgency * URGENCY_PENALTY;
      }
      score := Max(0.0, score);
    }

    /** The urgency of a vehicle's stored maintenance plan at `now`; 0 for a
        vehicle with no plan. */
    function CalculateMaintenanceUrgency(vehicleId: string, now: int): (urgency: Result<real>)
      reads this
      ensures vehicleId !in maintenanceSchedules ==> urgency == Ok(0.0)
      ensures urgency.Ok? ==> urgency.value <= 1.0
      ensures urgency.Err? <==> vehicleId in maintenanceSchedules
                                && -MINUTES_PER_HOUR < maintenanceSchedules[vehicleId].maintenanceInterval < MINUTES_PER_HOUR
    {
      if vehicleId !in maintenanceSchedules then Ok(0.0)
      else maintenanceSchedules[vehicleId].CalculateUrgency(now)
    }
  }
}
