/** The fleet records the scheduler works with, and its closed-form
    scores: how good a time slot is and how much fuel the weather costs. */
module FleetModel {
  import opened Common
  import opened Maintenance
  import opened WeatherAwareRouting

  datatype Location = Location(lat: real, lon: real)

  datatype DeliveryTask = DeliveryTask(
    id: string,
    origin: Location,
    destination: Location,
    deadline: int,
    estimatedDuration: int,
    priority: int,
    requiredCapacity: real)

  datatype Route = Route(
    points: seq<Location>,
    advisories: seq<string>,
    riskScore: real,
    estimatedDuration: int,
    fuelEfficiency: real)

  datatype ScheduledTask = ScheduledTask(
    taskId: string,
    vehicleId: string,
    startTime: int,
    endTime: int,
    origin: Location,
    destination: Location,
    route: Route)

  datatype FleetSchedule = FleetSchedule(
    fleetId: string,
    vehicleAssignments: map<string, seq<ScheduledTask>>)

  datatype VehicleTimeSlot = VehicleTimeSlot(
    vehicleId: string,
    driverId: string,
    startTime: int,
    endTime: int)

  /** The last GPS fix of a vehicle; the scheduler stores it and never
      reads it, so only its identifying fields are kept. */
  datatype GpsData = GpsData(deviceId: string, latitude: real, longitude: real, timestamp: int)

  datatype VehicleStatus = VehicleStatus(
    vehicleId: string,
    lastLocation: GpsData,
    fuelLevel: real,
    maintenanceUrgency: real)

  /** The vehicle and driver databases the scheduler consults but does not
      implement: the vehicles able to carry a capacity, and the driver (or
      `None`, for `null`) free to drive a vehicle from a start time for a
      duration. */
  datatype FleetDirectory = FleetDirectory(
    availableVehicles: real -> seq<string>,
    findAvailableDriver: (string, int, int) -> Option<string>)

  /** Everything one scheduling run consults outside the service's own
      state: the fleet databases, the weather provider and the clock. */
  datatype Services = Services(fleet: FleetDirectory, weather: Provider, now: int)

  // ------------------------------------------------------------- scores

  /** `Double.MIN_VALUE`: the smallest positive double, not the most
      negative one. */
  const DOUBLE_MIN_VALUE: real := 4.9406564584124654e-324

  const BASE_SCORE := 100.0
  const RISK_PENALTY := 20.0
  const FUEL_PENALTY := 10.0
  const URGENCY_PENALTY := 25.0

  /** The score of a slot: 100, less 20 per unit of route risk and, when the
      vehicle has a stored status, 10 per unit of missing fuel and 25 per
      unit of maintenance urgency; never below 0. */
  function TimeSlotScore(risk: real, status: Option<VehicleStatus>): (score: real)
    ensures score >= 0.0
  {
    var weather := BASE_SCORE - risk * RISK_PENALTY;
    var total := match status
      case None => weather
      case Some(s) => weather - (1.0 - s.fuelLevel) * FUEL_PENALTY - s.maintenanceUrgency * URGENCY_PENALTY;
    Max(0.0, total)
  }

  /** A vehicle without a stored status is scored as one with a full tank
      and no maintenance urgency. */
  lemma MissingStatusIsNoPenalty(risk: real, id: string, fix: GpsData)
    ensures TimeSlotScore(risk, None) == TimeSlotScore(risk, Some(VehicleStatus(id, fix, 1.0, 0.0)))
  {
  }

  /** For a risk in [0, 1], a fuel level in [0, 1] and an urgency in [0, 1]
      the score lies between 45 and 100, and it is 100 exactly when nothing
      is penalised. */
  lemma ScoreRange(risk: real, status: Option<VehicleStatus>)
    requires 0.0 <= risk <= 1.0
    requires status.Some? ==> 0.0 <= status.value.fuelLevel <= 1.0 && 0.0 <= status.value.maintenanceUrgency <= 1.0
    ensures 45.0 <= TimeSlotScore(risk, status) <= 100.0
    ensures TimeSlotScore(risk, status) == 100.0
        <==> risk == 0.0 && (status.Some? ==> status.value.fuelLevel == 1.0 && status.value.maintenanceUrgency == 0.0)
  {
  }

  /** More risk, less fuel or more urgency never raises the score. */
  lemma ScoreMonotone(risk: real, risk': real, status: Option<VehicleStatus>, status': Option<VehicleStatus>)
    requires risk <= risk'
    requires status.Some? <==> status'.Some?
    requires status.Some? ==> status.value.fuelLevel >= status'.value.fuelLevel
    requires status.Some? ==> status.value.maintenanceUrgency <= status'.value.maintenanceUrgency
    ensures TimeSlotScore(risk', status') <= TimeSlotScore(risk, status)
  {
  }

  /** The score bottoms out at 0 once the penalties reach 100. */
  lemma ScoreFloor(risk: real, status: Option<VehicleStatus>)
    requires status.None? ==> risk * RISK_PENALTY >= BASE_SCORE
    requires status.Some? ==> risk * RISK_PENALTY + (1.0 - status.value.fuelLevel) * FUEL_PENALTY
                                + status.value.maintenanceUrgency * URGENCY_PENALTY >= BASE_SCORE
    ensures TimeSlotScore(risk, status) == 0.0
  {
  }

  const WEATHER_FUEL_FACTOR := 0.2

  /** Fuel efficiency of a route: 1, reduced by a fifth of the route's risk
      score (the only part of the route it reads). */
  function FuelEfficiency(riskScore: real): (efficiency: real)
    ensures 0.0 <= riskScore <= 1.0 ==> 0.8 <= efficiency <= 1.0
    ensures efficiency == 1.0 <==> riskScore == 0.0
  {
    1.0 * (1.0 - riskScore * WEATHER_FUEL_FACTOR)
  }

  /** Riskier routes are never more fuel efficient. */
  lemma FuelEfficiencyAntitone(risk: real, risk': real)
    requires risk <= risk'
    ensures FuelEfficiency(risk') <= FuelEfficiency(risk)
  {
  }

  // --------------------------------------------------- maintenance lookups

  /** The stored status of a vehicle, `None` for `null`. */
  function StatusOf(statuses: map<string, VehicleStatus>, vehicleId: string): Option<VehicleStatus> {
    if vehicleId in statuses then Some(statuses[vehicleId]) else None
  }

  /** Maintenance is due for a vehicle at `time` only when a schedule is
      stored for it and that schedule says so. */
  predicate MaintenanceDueAt(schedules: map<string, MaintenanceSchedule>, vehicleId: string, time: int) {
    vehicleId in schedules && schedules[vehicleId].IsMaintenanceDue(time)
  }
}
