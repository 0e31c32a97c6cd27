/** A driver's recent shifts and the fatigue score derived from them. */
module Fatigue {
  import opened Common

  datatype Shift = Shift(startTime: int, endTime: int, duration: int)

  datatype DriverSchedule = DriverSchedule(
    driverId: string,
    shifts: seq<Shift>,
    maxDailyDuration: int)

  const TRAILING_WINDOW_MINUTES := 24 * MINUTES_PER_HOUR

  /** A shift counts at `time` when it ends strictly after `time - 24h`;
      shifts that end after `time` itself count as well. */
  predicate InTrailingDay(s: Shift, time: int) {
    s.endTime > time - TRAILING_WINDOW_MINUTES
  }

  /** Sum of the stored `duration` of the counted shifts (the field, not
      `endTime - startTime`). */
  function RecentDuration(shifts: seq<Shift>, time: int): int
    decreases |shifts|
  {
    if shifts == [] then 0
    else
      var last := shifts[|shifts| - 1];
      RecentDuration(shifts[..|shifts| - 1], time) + (if InTrailingDay(last, time) then last.duration else 0)
  }

  /** The fatigue score the loop below computes. */
  function FatigueScore(d: DriverSchedule, time: int): Result<real> {
    CappedHourRatio(RecentDuration(d.shifts, time), d.maxDailyDuration)
  }

  method CalculateFatigueScore(d: DriverSchedule, time: int) returns (fatigue: Result<real>)
    ensures fatigue == FatigueScore(d, time)
    ensures fatigue.Ok? ==> fatigue.value <= 1.0
    ensures fatigue.Err? <==> -MINUTES_PER_HOUR < d.maxDailyDuration < MINUTES_PER_HOUR
  {
    var totalDuration := 0;
    var i := 0;
    while i < |d.shifts|
      invariant 0 <= i <= |d.shifts|
      invariant totalDuration == RecentDuration(d.shifts[..i], time)
    {
      var shift := d.shifts[i];
      assert d.shifts[..i + 1][..i] == d.shifts[..i];
      if shift.endTime > time - TRAILING_WINDOW_MINUTES {
        totalDuration := totalDuration + shift.duration;
      }
      i := i + 1;
    }
    assert d.shifts[..i] == d.shifts;
    fatigue := CappedHourRatio(totalDuration, d.maxDailyDuration);
  }

  /** No shifts, no fatigue. */
  lemma EmptyScheduleIsRested(id: string, maxDaily: int, time: int)
    requires maxDaily >= MINUTES_PER_HOUR
    ensures FatigueScore(DriverSchedule(id, [], maxDaily), time) == Ok(0.0)
  {
  }

  /** For non-negative durations and a daily maximum of at least one hour
      the score is exactly 0 or 1: whole hours are divided as `long`s. */
  lemma FatigueZeroOrOne(d: DriverSchedule, time: int)
    requires forall s :: s in d.shifts ==> s.duration >= 0
    requires d.maxDailyDuration >= MINUTES_PER_HOUR
    ensures FatigueScore(d, time) == Ok(0.0) || FatigueScore(d, time) == Ok(1.0)
    ensures FatigueScore(d, time) == Ok(1.0)
        <==> ToHours(RecentDuration(d.shifts, time)) >= ToHours(d.maxDailyDuration)
  {
    RecentDurationNonNegative(d.shifts, time);
    CappedHourRatioZeroOrOne(RecentDuration(d.shifts, time), d.maxDailyDuration);
  }

  lemma {:induction false} RecentDurationNonNegative(shifts: seq<Shift>, time: int)
    requires forall s :: s in shifts ==> s.duration >= 0
    ensures RecentDuration(shifts, time) >= 0
  {
    if shifts != [] {
      RecentDurationNonNegative(shifts[..|shifts| - 1], time);
    }
  }

  /** A shift ending exactly 24 hours before `time` is not counted. */
  lemma BoundaryShiftExcluded(shifts: seq<Shift>, s: Shift, time: int)
    requires s.endTime == time - TRAILING_WINDOW_MINUTES
    ensures RecentDuration(shifts + [s], time) == RecentDuration(shifts, time)
  {
    assert (shifts + [s])[..|shifts|] == shifts;
  }

  /** A shift ending after `time - 24h` adds its stored duration, even when
      it ends after `time`. */
  lemma QualifyingShiftCounted(shifts: seq<Shift>, s: Shift, time: int)
    requires s.endTime > time - TRAILING_WINDOW_MINUTES
    ensures RecentDuration(shifts + [s], time) == RecentDuration(shifts, time) + s.duration
  {
    assert (shifts + [s])[..|shifts|] == shifts;
  }

  /** Adding a counted shift of non-negative duration never lowers the
      score. */
  lemma AddingShiftNeverLowersFatigue(d: DriverSchedule, s: Shift, time: int)
    requires InTrailingDay(s, time) && s.duration >= 0
    requires d.maxDailyDuration >= MINUTES_PER_HOUR
    ensures FatigueScore(d, time).Ok?
    ensures FatigueScore(d.(shifts := d.shifts + [s]), time).Ok?
    ensures FatigueScore(d, time).value <= FatigueScore(d.(shifts := d.shifts + [s]), time).value
  {
    QualifyingShiftCounted(d.shifts, s, time);
    CappedHourRatioMonotone(RecentDuration(d.shifts, time), RecentDuration(d.shifts + [s], time), d.maxDailyDuration);
  }

  /** Only `endTime` and `duration` matter: shifts that agree on those give
      the same total whatever their start times. */
  lemma {:induction false} StartTimesIgnored(a: seq<Shift>, b: seq<Shift>, time: int)
    requires |a| == |b|
    requires forall i :: 0 <= i < |a| ==> a[i].endTime == b[i].endTime && a[i].duration == b[i].duration
    ensures RecentDuration(a, time) == RecentDuration(b, time)
  {
    if a != [] {
      StartTimesIgnored(a[..|a| - 1], b[..|b| - 1], time);
    }
  }
}
