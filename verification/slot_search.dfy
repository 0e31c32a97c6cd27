/** The search for the best vehicle and time slot for one task: every
    candidate vehicle is tried in turn, in the order the fleet lists them,
    and the weather cache is threaded through the forecasts each try
    needs. */
module SlotSearch {
  import opened Common
  import opened WeatherRisk
  import opened WeatherAwareRouting
  import opened Maintenance
  import opened FleetModel

  /** A vehicle that passed every check, with its slot and its score. */
  datatype Candidate = Candidate(slot: VehicleTimeSlot, score: real)

  datatype Evaluated = Evaluated(candidate: Option<Candidate>, cache: Cache)

  /** When a vehicle can start: when its last assignment ends, or the start
      of the run for a vehicle with no assignment yet. */
  function StartOf(availability: map<string, int>, vehicleId: string, startTime: int): int {
    if vehicleId in availability then availability[vehicleId] else startTime
  }

  /** One candidate vehicle: rejected when it only becomes free after the
      deadline, when its maintenance is due by then, or when no driver is
      free at the weather-optimal departure; otherwise scored. The departure
      search and the route scoring each read the forecast cache. */
  function Evaluate(cache: Cache, task: DeliveryTask, vehicleId: string, startTime: int,
                    availability: map<string, int>, maintenance: map<string, MaintenanceSchedule>,
                    statuses: map<string, VehicleStatus>, svc: Services): Evaluated
  {
    var vehicleStart := StartOf(availability, vehicleId, startTime);
    if vehicleStart > task.deadline then Evaluated(None, cache)
    else if MaintenanceDueAt(maintenance, vehicleId, vehicleStart) then Evaluated(None, cache)
    else
      var o, d := task.origin, task.destination;
      var scan := Scanned(cache, o.lat, o.lon, d.lat, d.lon, GridSize(vehicleStart, task.deadline), svc.now, svc.weather);
      Offered(scan.cache, task, vehicleId, OptimalDeparture(vehicleStart, scan.risks), statuses, svc)
  }

  /** The second half of an evaluation, once the departure is chosen: no
      candidate when no driver is free, otherwise the slot from the
      departure for the task's duration, scored on the route's weather. */
  function Offered(cache: Cache, task: DeliveryTask, vehicleId: string, departure: int,
                   statuses: map<string, VehicleStatus>, svc: Services): Evaluated
  {
    var driver := svc.fleet.findAvailableDriver(vehicleId, departure, task.estimatedDuration);
    if driver.None? then Evaluated(None, cache)
    else
      var o, d := task.origin, task.destination;
      var w := Sampled(cache, o.lat, o.lon, d.lat, d.lon, SampleCount(), svc.now, svc.weather);
      var slot := VehicleTimeSlot(vehicleId, driver.value, departure, departure + task.estimatedDuration);
      Evaluated(Some(Candidate(slot, TimeSlotScore(RiskScore(w.points), StatusOf(statuses, vehicleId)))), w.cache)
  }

  /** What a candidate's slot satisfies: the vehicle was free by the
      deadline and not due for maintenance at that time, the driver was
      returned for exactly this departure and duration, and the departure
      lies between the vehicle's start and the deadline. */
  predicate Eligible(c: Candidate, task: DeliveryTask, vehicleId: string, startTime: int,
                     availability: map<string, int>, maintenance: map<string, MaintenanceSchedule>, svc: Services)
  {
    var vehicleStart := StartOf(availability, vehicleId, startTime);
    && c.slot.vehicleId == vehicleId
    && vehicleStart <= task.deadline
    && !MaintenanceDueAt(maintenance, vehicleId, vehicleStart)
    && svc.fleet.findAvailableDriver(vehicleId, c.slot.startTime, task.estimatedDuration) == Some(c.slot.driverId)
    && vehicleStart <= c.slot.startTime <= task.deadline
    && c.slot.endTime == c.slot.startTime + task.estimatedDuration
    && c.score >= 0.0
  }

  /** Every candidate that survives the checks is eligible, and a rejected
      vehicle falls under one of the three rejections. */
  lemma EvaluateSound(cache: Cache, task: DeliveryTask, vehicleId: string, startTime: int,
                      availability: map<string, int>, maintenance: map<string, MaintenanceSchedule>,
                      statuses: map<string, VehicleStatus>, svc: Services)
    ensures var e := Evaluate(cache, task, vehicleId, startTime, availability, maintenance, statuses, svc);
      e.candidate.Some? ==> Eligible(e.candidate.value, task, vehicleId, startTime, availability, maintenance, svc)
    ensures var e := Evaluate(cache, task, vehicleId, startTime, availability, maintenance, statuses, svc);
      var vehicleStart := StartOf(availability, vehicleId, startTime);
      e.candidate.None? <==>
        || vehicleStart > task.deadline
        || MaintenanceDueAt(maintenance, vehicleId, vehicleStart)
        || svc.fleet.findAvailableDriver(vehicleId, OptimalDeparture(vehicleStart,
             Scanned(cache, task.origin.lat, task.origin.lon, task.destination.lat, task.destination.lon,
                     GridSize(vehicleStart, task.deadline), svc.now, svc.weather).risks), task.estimatedDuration).None?
  {
    var vehicleStart := StartOf(availability, vehicleId, startTime);
    if vehicleStart <= task.deadline && !MaintenanceDueAt(maintenance, vehicleId, vehicleStart) {
      var o, d := task.origin, task.destination;
      var scan := Scanned(cache, o.lat, o.lon, d.lat, d.lon, GridSize(vehicleStart, task.deadline), svc.now, svc.weather);
      ScanLength(cache, o.lat, o.lon, d.lat, d.lon, GridSize(vehicleStart, task.deadline), svc.now, svc.weather);
      OptimalDepartureInWindow(vehicleStart, task.deadline, scan.risks);
    }
  }

  // ------------------------------------------------------ the whole search

  datatype Search = Search(evaluations: seq<Option<Candidate>>, cache: Cache)

  /** The first `n` vehicles evaluated in order, each try starting from the
      cache the previous one left. */
  function Searched(cache: Cache, task: DeliveryTask, vehicles: seq<string>, n: nat, startTime: int,
                    availability: map<string, int>, maintenance: map<string, MaintenanceSchedule>,
                    statuses: map<string, VehicleStatus>, svc: Services): Search
    requires n <= |vehicles|
    decreases n, 0
  {
    if n == 0 then Search([], cache)
    else SearchExtended(cache, task, vehicles, n - 1, startTime, availability, maintenance, statuses, svc)
  }

  /** The search over the first `n + 1` vehicles: the first `n`, extended by
      the evaluation of the next. */
  function SearchExtended(cache: Cache, task: DeliveryTask, vehicles: seq<string>, n: nat, startTime: int,
                          availability: map<string, int>, maintenance: map<string, MaintenanceSchedule>,
                          statuses: map<string, VehicleStatus>, svc: Services): Search
    requires n < |vehicles|
    decreases n, 2
  {
    var e := NthEvaluation(cache, task, vehicles, n, startTime, availability, maintenance, statuses, svc);
    Search(Searched(cache, task, vehicles, n, startTime, availability, maintenance, statuses, svc).evaluations + [e.candidate],
           e.cache)
  }

  /** The evaluation of vehicle `n`, from the cache the first `n` left. */
  function NthEvaluation(cache: Cache, task: DeliveryTask, vehicles: seq<string>, n: nat, startTime: int,
                         availability: map<string, int>, maintenance: map<string, MaintenanceSchedule>,
                         statuses: map<string, VehicleStatus>, svc: Services): Evaluated
    requires n < |vehicles|
    decreases n, 1
  {
    var s := Searched(cache, task, vehicles, n, startTime, availability, maintenance, statuses, svc);
    Evaluate(s.cache, task, vehicles[n], startTime, availability, maintenance, statuses, svc)
  }

  /** Evaluating the next vehicle from the state a search reached extends
      that search by one. */
  lemma SearchedStep(cache: Cache, task: DeliveryTask, vehicles: seq<string>, n: nat, startTime: int,
                     availability: map<string, int>, maintenance: map<string, MaintenanceSchedule>,
                     statuses: map<string, VehicleStatus>, svc: Services,
                     evaluations: seq<Option<Candidate>>, current: Cache, e: Evaluated)
    requires n < |vehicles|
    requires Search(evaluations, current)
          == Searched(cache, task, vehicles, n, startTime, availability, maintenance, statuses, svc)
    requires e == Evaluate(current, task, vehicles[n], startTime, availability, maintenance, statuses, svc)
    ensures Searched(cache, task, vehicles, n + 1, startTime, availability, maintenance, statuses, svc)
         == Search(evaluations + [e.candidate], e.cache)
  {
    assert NthEvaluation(cache, task, vehicles, n, startTime, availability, maintenance, statuses, svc) == e;
  }

  /** The search over every vehicle able to carry the task. */
  function SearchAll(cache: Cache, task: DeliveryTask, startTime: int, availability: map<string, int>,
                      maintenance: map<string, MaintenanceSchedule>, statuses: map<string, VehicleStatus>,
                      svc: Services): Search
  {
    var vehicles := svc.fleet.availableVehicles(task.requiredCapacity);
    Searched(cache, task, vehicles, |vehicles|, startTime, availability, maintenance, statuses, svc)
  }

  /** One evaluation per vehicle, and each surviving candidate is eligible
      for the vehicle at its position. */
  lemma {:induction false} SearchedSound(cache: Cache, task: DeliveryTask, vehicles: seq<string>, n: nat, startTime: int,
                                         availability: map<string, int>, maintenance: map<string, MaintenanceSchedule>,
                                         statuses: map<string, VehicleStatus>, svc: Services)
    requires n <= |vehicles|
    ensures var s := Searched(cache, task, vehicles, n, startTime, availability, maintenance, statuses, svc);
      && |s.evaluations| == n
      && forall j :: 0 <= j < n && s.evaluations[j].Some? ==>
           Eligible(s.evaluations[j].value, task, vehicles[j], startTime, availability, maintenance, svc)
  {
    if n > 0 {
      SearchedSound(cache, task, vehicles, n - 1, startTime, availability, maintenance, statuses, svc);
      SearchedSoundStep(cache, task, vehicles, n - 1, startTime, availability, maintenance, statuses, svc);
    }
  }

  /** Evaluating one more vehicle keeps every candidate eligible. */
  lemma SearchedSoundStep(cache: Cache, task: DeliveryTask, vehicles: seq<string>, n: nat, startTime: int,
                          availability: map<string, int>, maintenance: map<string, MaintenanceSchedule>,
                          statuses: map<string, VehicleStatus>, svc: Services)
    requires n < |vehicles|
    requires var s := Searched(cache, task, vehicles, n, startTime, availability, maintenance, statuses, svc);
      && |s.evaluations| == n
      && forall j :: 0 <= j < n && s.evaluations[j].Some? ==>
           Eligible(s.evaluations[j].value, task, vehicles[j], startTime, availability, maintenance, svc)
    ensures var s := Searched(cache, task, vehicles, n + 1, startTime, availability, maintenance, statuses, svc);
      && |s.evaluations| == n + 1
      && forall j :: 0 <= j < n + 1 && s.evaluations[j].Some? ==>
           Eligible(s.evaluations[j].value, task, vehicles[j], startTime, availability, maintenance, svc)
  {
    var s := Searched(cache, task, vehicles, n, startTime, availability, maintenance, statuses, svc);
    var e := NthEvaluation(cache, task, vehicles, n, startTime, availability, maintenance, statuses, svc);
    assert e == Evaluate(s.cache, task, vehicles[n], startTime, availability, maintenance, statuses, svc);
    EvaluateSound(s.cache, task, vehicles[n], startTime, availability, maintenance, statuses, svc);
    var evaluations := s.evaluations + [e.candidate];
    assert Searched(cache, task, vehicles, n + 1, startTime, availability, maintenance, statuses, svc).evaluations == evaluations;
    forall j | 0 <= j < n + 1 && evaluations[j].Some?
      ensures Eligible(evaluations[j].value, task, vehicles[j], startTime, availability, maintenance, svc)
    {
      if j < n {
        assert evaluations[j] == s.evaluations[j];
      }
    }
  }

  // ------------------------------------------------------------- selection

  /** The position of the slot the search keeps: a candidate replaces the
      best so far only when its score is strictly greater, starting from
      `Double.MIN_VALUE`. */
  function BestIndex(evaluations: seq<Option<Candidate>>): (k: Option<nat>)
    ensures k.Some? ==> k.value < |evaluations| && evaluations[k.value].Some?
    decreases |evaluations|
  {
    if evaluations == [] then None
    else
      var init := evaluations[..|evaluations| - 1];
      var last := evaluations[|evaluations| - 1];
      var k := BestIndex(init);
      if last.Some? && last.value.score > BestScore(init, k) then Some(|evaluations| - 1) else k
  }

  /** The score to beat: the kept candidate's, or `Double.MIN_VALUE`. */
  function BestScore(evaluations: seq<Option<Candidate>>, k: Option<nat>): real
    requires k.Some? ==> k.value < |evaluations| && evaluations[k.value].Some?
  {
    if k.None? then DOUBLE_MIN_VALUE else evaluations[k.value].value.score
  }

  /** The slot the search returns, `None` for `null`. */
  function Selected(evaluations: seq<Option<Candidate>>): Option<VehicleTimeSlot> {
    var k := BestIndex(evaluations);
    if k.None? then None else Some(evaluations[k.value].value.slot)
  }

  /** The kept candidate scores above `Double.MIN_VALUE` (so a score of 0 is
      never kept), no candidate scores higher, and every earlier candidate
      scores strictly lower: among equal scores the first wins. Nothing is
      kept exactly when no candidate scores above `Double.MIN_VALUE`. */
  lemma {:induction false} BestIsFirstMaximum(evaluations: seq<Option<Candidate>>)
    ensures var k := BestIndex(evaluations);
      k.None? <==> forall j :: 0 <= j < |evaluations| && evaluations[j].Some? ==> evaluations[j].value.score <= DOUBLE_MIN_VALUE
    ensures var k := BestIndex(evaluations);
      k.Some? ==>
        && evaluations[k.value].value.score > DOUBLE_MIN_VALUE
        && (forall j :: 0 <= j < |evaluations| && evaluations[j].Some? ==> evaluations[j].value.score <= evaluations[k.value].value.score)
        && (forall j :: 0 <= j < k.value && evaluations[j].Some? ==> evaluations[j].value.score < evaluations[k.value].value.score)
    decreases |evaluations|
  {
    if evaluations != [] {
      var init := evaluations[..|evaluations| - 1];
      BestIsFirstMaximum(init);
      assert forall j :: 0 <= j < |init| ==> init[j] == evaluations[j];
    }
  }

  /** A candidate scoring no more than `Double.MIN_VALUE` (a score of 0, the
      floor of the slot score, among them) is never the one kept; when it is
      the only candidate, nothing is selected, although its vehicle passed
      every check. */
  lemma ZeroScoreNeverSelected(evaluations: seq<Option<Candidate>>, j: nat)
    requires j < |evaluations| && evaluations[j].Some? && evaluations[j].value.score <= DOUBLE_MIN_VALUE
    ensures BestIndex(evaluations) != Some(j)
    ensures (forall i :: 0 <= i < |evaluations| && i != j ==> evaluations[i].None?) ==> Selected(evaluations) == None
  {
    BestIsFirstMaximum(evaluations);
  }

  /** The selected slot came from an eligible candidate of some listed
      vehicle. */
  lemma SelectedIsEligible(cache: Cache, task: DeliveryTask, startTime: int, availability: map<string, int>,
                           maintenance: map<string, MaintenanceSchedule>, statuses: map<string, VehicleStatus>,
                           svc: Services)
    ensures var s := SearchAll(cache, task, startTime, availability, maintenance, statuses, svc);
      var vehicles := svc.fleet.availableVehicles(task.requiredCapacity);
      Selected(s.evaluations).Some? ==>
        exists j :: 0 <= j < |vehicles| && Selected(s.evaluations).value.vehicleId == vehicles[j]
          && exists score :: Eligible(Candidate(Selected(s.evaluations).value, score), task, vehicles[j], startTime,
                                      availability, maintenance, svc)
  {
    var vehicles := svc.fleet.availableVehicles(task.requiredCapacity);
    var s := SearchAll(cache, task, startTime, availability, maintenance, statuses, svc);
    SearchedSound(cache, task, vehicles, |vehicles|, startTime, availability, maintenance, statuses, svc);
    var k := BestIndex(s.evaluations);
    if k.Some? {
      var c := s.evaluations[k.value].value;
      assert Eligible(c, task, vehicles[k.value], startTime, availability, maintenance, svc);
      assert Selected(s.evaluations).value == c.slot;
    }
  }

  /** The state of the search loop after the evaluations seen so far. */
  predicate SelectionState(seen: seq<Option<Candidate>>, bestSlot: Option<VehicleTimeSlot>, bestScore: real) {
    bestSlot == Selected(seen) && bestScore == BestScore(seen, BestIndex(seen))
  }

  /** One more evaluation keeps the state in step with the loop's update. */
  lemma SelectionStep(seen: seq<Option<Candidate>>, bestSlot: Option<VehicleTimeSlot>, bestScore: real,
                      candidate: Option<Candidate>)
    requires SelectionState(seen, bestSlot, bestScore)
    ensures candidate.Some? && candidate.value.score > bestScore ==>
      SelectionState(seen + [candidate], Some(candidate.value.slot), candidate.value.score)
    ensures !(candidate.Some? && candidate.value.score > bestScore) ==>
      SelectionState(seen + [candidate], bestSlot, bestScore)
  {
    assert (seen + [candidate])[..|seen|] == seen;
    var k := BestIndex(seen);
    if k.Some? {
      assert (seen + [candidate])[k.value] == seen[k.value];
    }
  }
}
