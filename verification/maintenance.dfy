/** A vehicle's maintenance record: when it was last serviced and how long
    it may run before the next service is due. */
module Maintenance {
  import opened Common

  /** `nextScheduled` is keyed by a maintenance kind; the kinds themselves
      are not part of this model, so they appear by name. */
  type MaintenanceType = string

  datatype MaintenanceSchedule = MaintenanceSchedule(
    vehicleId: string,
    lastMaintenance: int,
    maintenanceInterval: int,
    nextScheduled: map<MaintenanceType, int>)
  {
    /** Due strictly after the end of the interval. */
    predicate IsMaintenanceDue(time: int) {
      time > lastMaintenance + maintenanceInterval
    }

    /** Whole hours since the last service over whole hours of the
        interval, capped at 1, with `now` the clock reading. */
    function CalculateUrgency(now: int): (r: Result<real>)
      ensures r.Ok? ==> r.value <= 1.0
    {
      CappedHourRatio(now - lastMaintenance, maintenanceInterval)
    }
  }

  /** Maintenance is not due at the very end of the interval, and it is
      due at every instant after it. */
  lemma DueBoundary(m: MaintenanceSchedule, t: int)
    ensures !m.IsMaintenanceDue(m.lastMaintenance + m.maintenanceInterval)
    ensures t > m.lastMaintenance + m.maintenanceInterval ==> m.IsMaintenanceDue(t)
  {
  }

  /** Once due, maintenance stays due. */
  lemma DueMonotone(m: MaintenanceSchedule, t: int, later: int)
    requires m.IsMaintenanceDue(t) && t <= later
    ensures m.IsMaintenanceDue(later)
  {
  }

  /** Never above 1; exactly 0 or 1 once the interval is at least an hour
      and the last service lies in the past; 1 exactly when the whole
      hours elapsed reach the whole hours of the interval. */
  lemma UrgencyZeroOrOne(m: MaintenanceSchedule, now: int)
    requires now >= m.lastMaintenance && m.maintenanceInterval >= MINUTES_PER_HOUR
    ensures m.CalculateUrgency(now) == Ok(0.0) || m.CalculateUrgency(now) == Ok(1.0)
    ensures m.CalculateUrgency(now) == Ok(1.0)
        <==> ToHours(now - m.lastMaintenance) >= ToHours(m.maintenanceInterval)
  {
    CappedHourRatioZeroOrOne(now - m.lastMaintenance, m.maintenanceInterval);
  }

  /** An interval shorter than one hour truncates to zero whole hours, so
      the division throws. */
  lemma UrgencyDivideByZero(m: MaintenanceSchedule, now: int)
    ensures m.CalculateUrgency(now).Err?
        <==> -MINUTES_PER_HOUR < m.maintenanceInterval < MINUTES_PER_HOUR
  {
  }

  /** Urgency grows (weakly) with the clock. */
  lemma UrgencyMonotone(m: MaintenanceSchedule, now: int, later: int)
    requires now <= later && m.maintenanceInterval >= MINUTES_PER_HOUR
    ensures m.CalculateUrgency(now).Ok? && m.CalculateUrgency(later).Ok?
    ensures m.CalculateUrgency(now).value <= m.CalculateUrgency(later).value
  {
    CappedHourRatioMonotone(now - m.lastMaintenance, later - m.lastMaintenance, m.maintenanceInterval);
  }

  /** Urgency reads only the last service, the interval and the clock:
      the `nextScheduled` plan and the vehicle id play no part. */
  lemma UrgencyIgnoresPlan(m: MaintenanceSchedule, plan: map<MaintenanceType, int>, id: string, now: int)
    ensures m.(nextScheduled := plan, vehicleId := id).CalculateUrgency(now) == m.CalculateUrgency(now)
  {
  }
}
