/** The greedy scheduling run as a function of its inputs: tasks leave a
    priority queue most urgent first, each is given the best slot the
    search finds (or none), and the chosen vehicle's availability moves to
    the end of that slot. */
module Schedule {
  import opened Common
  import opened WeatherRisk
  import opened WeatherAwareRouting
  import opened Maintenance
  import opened FleetModel
  import opened SlotSearch

  // ------------------------------------------------------ the task queue

  /** The queue's order: lower priority value first, then earlier
      deadline. */
  predicate TaskLe(a: DeliveryTask, b: DeliveryTask) {
    a.priority < b.priority || (a.priority == b.priority && a.deadline <= b.deadline)
  }

  /** Where the next poll comes from: the first task of least
      (priority, deadline). */
  function FirstMinTask(queue: seq<DeliveryTask>): (k: nat)
    requires queue != []
    ensures k < |queue|
    decreases |queue|
  {
    if |queue| == 1 then 0
    else
      var k := FirstMinTask(queue[..|queue| - 1]);
      if TaskLe(queue[k], queue[|queue| - 1]) then k else |queue| - 1
  }

  /** The polled task comes no later in the order than any queued task, and
      every task before it in the queue comes strictly later. */
  lemma {:induction false} PollIsMinimal(queue: seq<DeliveryTask>)
    requires queue != []
    ensures var k := FirstMinTask(queue);
      && (forall j :: 0 <= j < |queue| ==> TaskLe(queue[k], queue[j]))
      && (forall j :: 0 <= j < k ==> !TaskLe(queue[j], queue[k]))
    decreases |queue|
  {
    if |queue| > 1 {
      var init := queue[..|queue| - 1];
      PollIsMinimal(init);
      assert forall j :: 0 <= j < |init| ==> init[j] == queue[j];
    }
  }

  /** The queue without the polled task. */
  function Remove(queue: seq<DeliveryTask>, k: nat): (rest: seq<DeliveryTask>)
    requires k < |queue|
    ensures |rest| == |queue| - 1
    ensures multiset(rest) == multiset(queue) - multiset{queue[k]}
  {
    assert queue == queue[..k] + [queue[k]] + queue[k + 1..];
    queue[..k] + queue[k + 1..]
  }

  // ------------------------------------------------------------ outcomes

  /** What became of one polled task: placed on a slot, with the weather
      sampled for the route computed for it, or left unscheduled. */
  datatype Outcome =
    | Placed(task: DeliveryTask, slot: VehicleTimeSlot, weather: seq<WeatherPoint>)
    | Unplaced(task: DeliveryTask)

  /** The tasks in the order they left the queue. */
  function Dequeued(outcomes: seq<Outcome>): (tasks: seq<DeliveryTask>)
    ensures |tasks| == |outcomes|
    decreases |outcomes|
  {
    if outcomes == [] then [] else Dequeued(outcomes[..|outcomes| - 1]) + [outcomes[|outcomes| - 1].task]
  }

  /** Each vehicle's assignments, in order. */
  function PlanOf(outcomes: seq<Outcome>): map<string, seq<Outcome>>
    decreases |outcomes|
  {
    if outcomes == [] then map[]
    else
      var plan := PlanOf(outcomes[..|outcomes| - 1]);
      match outcomes[|outcomes| - 1]
      case Unplaced(_) => plan
      case Placed(_, slot, _) =>
        var v := slot.vehicleId;
        plan[v := (if v in plan then plan[v] else []) + [outcomes[|outcomes| - 1]]]
  }

  /** When each vehicle becomes free again. */
  function AvailabilityOf(outcomes: seq<Outcome>): map<string, int>
    decreases |outcomes|
  {
    if outcomes == [] then map[]
    else
      var availability := AvailabilityOf(outcomes[..|outcomes| - 1]);
      match outcomes[|outcomes| - 1]
      case Unplaced(_) => availability
      case Placed(_, slot, _) => availability[slot.vehicleId := slot.endTime]
  }

  /** The placed outcomes of one vehicle, in order. */
  function PlacedOn(outcomes: seq<Outcome>, vehicleId: string): seq<Outcome>
    decreases |outcomes|
  {
    if outcomes == [] then []
    else
      var o := outcomes[|outcomes| - 1];
      PlacedOn(outcomes[..|outcomes| - 1], vehicleId) + (if o.Placed? && o.slot.vehicleId == vehicleId then [o] else [])
  }

  /** A vehicle's list is exactly its placed outcomes in dequeue order, so
      each polled task lands in at most one list, at most once; and a
      vehicle is free again when its last assignment ends. */
  lemma {:induction false} PlanShape(outcomes: seq<Outcome>)
    ensures PlanOf(outcomes).Keys == AvailabilityOf(outcomes).Keys
    ensures forall v :: v in PlanOf(outcomes) ==> PlanOf(outcomes)[v] == PlacedOn(outcomes, v) != []
    ensures forall v :: v !in PlanOf(outcomes) ==> PlacedOn(outcomes, v) == []
    ensures forall v :: v in PlanOf(outcomes) ==>
      var list := PlanOf(outcomes)[v];
      list[|list| - 1].Placed? && AvailabilityOf(outcomes)[v] == list[|list| - 1].slot.endTime
  {
    PlanKeys(outcomes);
    PlanIsPlacedOn(outcomes);
    PlanLastEnd(outcomes);
  }

  lemma {:induction false} PlanKeys(outcomes: seq<Outcome>)
    ensures PlanOf(outcomes).Keys == AvailabilityOf(outcomes).Keys
    decreases |outcomes|
  {
    if outcomes != [] {
      PlanKeys(outcomes[..|outcomes| - 1]);
    }
  }

  lemma {:induction false} PlanIsPlacedOn(outcomes: seq<Outcome>)
    ensures forall v :: v in PlanOf(outcomes) ==> PlanOf(outcomes)[v] == PlacedOn(outcomes, v) != []
    ensures forall v :: v !in PlanOf(outcomes) ==> PlacedOn(outcomes, v) == []
    decreases |outcomes|
  {
    if outcomes != [] {
      var init := outcomes[..|outcomes| - 1];
      var o := outcomes[|outcomes| - 1];
      PlanIsPlacedOn(init);
      assert outcomes == init + [o];
      if o.Placed? {
        PlanShapeStep(init, o);
      } else {
        UnplacedChangesNothing(init, o.task);
      }
    }
  }

  lemma {:induction false} PlanLastEnd(outcomes: seq<Outcome>)
    ensures forall v :: v in PlanOf(outcomes) ==>
      var list := PlanOf(outcomes)[v];
      && list != [] && list[|list| - 1].Placed?
      && v in AvailabilityOf(outcomes) && AvailabilityOf(outcomes)[v] == list[|list| - 1].slot.endTime
    decreases |outcomes|
  {
    if outcomes != [] {
      var init := outcomes[..|outcomes| - 1];
      var o := outcomes[|outcomes| - 1];
      PlanLastEnd(init);
      assert outcomes == init + [o];
      if o.Placed? {
        PlanShapeStep(init, o);
      } else {
        UnplacedChangesNothing(init, o.task);
      }
    }
  }

  /** One placed outcome extends its vehicle's list and availability and
      leaves every other vehicle's alone. */
  lemma PlanShapeStep(init: seq<Outcome>, o: Outcome)
    requires o.Placed?
    ensures var plan := PlanOf(init);
      var v := o.slot.vehicleId;
      && PlanOf(init + [o]) == plan[v := (if v in plan then plan[v] else []) + [o]]
      && AvailabilityOf(init + [o]) == AvailabilityOf(init)[v := o.slot.endTime]
  {
    assert (init + [o])[..|init|] == init;
  }

  /** A task that finds no slot changes no list and no availability. */
  lemma UnplacedChangesNothing(outcomes: seq<Outcome>, task: DeliveryTask)
    ensures PlanOf(outcomes + [Unplaced(task)]) == PlanOf(outcomes)
    ensures AvailabilityOf(outcomes + [Unplaced(task)]) == AvailabilityOf(outcomes)
  {
    assert (outcomes + [Unplaced(task)])[..|outcomes|] == outcomes;
  }

  // ---------------------------------------------------------- poll order

  /** The queue after `n` polls. */
  function QueueAfter(tasks: seq<DeliveryTask>, n: nat): (queue: seq<DeliveryTask>)
    requires n <= |tasks|
    ensures |queue| == |tasks| - n
  {
    if n == 0 then tasks
    else
      var q := QueueAfter(tasks, n - 1);
      Remove(q, FirstMinTask(q))
  }

  /** The task returned by the poll after `n` earlier ones. */
  function PolledAt(tasks: seq<DeliveryTask>, n: nat): DeliveryTask
    requires n < |tasks|
  {
    var q := QueueAfter(tasks, n);
    q[FirstMinTask(q)]
  }

  /** The first `n` polled tasks, in poll order. */
  function PollOrder(tasks: seq<DeliveryTask>, n: nat): (polled: seq<DeliveryTask>)
    requires n <= |tasks|
    ensures |polled| == n
  {
    if n == 0 then [] else PollOrder(tasks, n - 1) + [PolledAt(tasks, n - 1)]
  }

  /** Sorted by the queue's order. */
  predicate SortedByUrgency(tasks: seq<DeliveryTask>) {
    forall i, j :: 0 <= i < j < |tasks| ==> TaskLe(tasks[i], tasks[j])
  }

  /** The queue discipline: the polled tasks are sorted, none comes after a
      task still queued, and polled and queued tasks together are the
      input. */
  predicate QueueDiscipline(tasks: seq<DeliveryTask>, polled: seq<DeliveryTask>, queue: seq<DeliveryTask>) {
    && multiset(polled) + multiset(queue) == multiset(tasks)
    && SortedByUrgency(polled)
    && forall i, j :: 0 <= i < |polled| && 0 <= j < |queue| ==> TaskLe(polled[i], queue[j])
  }

  /** Polling the first least task keeps the discipline. */
  lemma PollKeepsDiscipline(tasks: seq<DeliveryTask>, polled: seq<DeliveryTask>, queue: seq<DeliveryTask>)
    requires queue != []
    requires QueueDiscipline(tasks, polled, queue)
    ensures var k := FirstMinTask(queue);
      QueueDiscipline(tasks, polled + [queue[k]], Remove(queue, k))
  {
    var k := FirstMinTask(queue);
    var rest := Remove(queue, k);
    var polled' := polled + [queue[k]];
    PollIsMinimal(queue);
    PolledSortsLast(polled, queue, k);
    RestIsFromQueue(queue, k);
    forall i, j | 0 <= i < |polled'| && 0 <= j < |rest|
      ensures TaskLe(polled'[i], rest[j])
    {
      assert rest[j] in rest;
      var j' :| 0 <= j' < |queue| && queue[j'] == rest[j];
      if i < |polled| {
        assert polled'[i] == polled[i];
      }
    }
  }

  /** A sorted prefix stays sorted when a task no later than every queued
      task is appended. */
  lemma PolledSortsLast(polled: seq<DeliveryTask>, queue: seq<DeliveryTask>, k: nat)
    requires k < |queue|
    requires SortedByUrgency(polled)
    requires forall i, j :: 0 <= i < |polled| && 0 <= j < |queue| ==> TaskLe(polled[i], queue[j])
    ensures SortedByUrgency(polled + [queue[k]])
  {
    var polled' := polled + [queue[k]];
    forall i, j | 0 <= i < j < |polled'|
      ensures TaskLe(polled'[i], polled'[j])
    {
      assert polled'[i] == polled[i];
    }
  }

  /** Every task left in the queue was in it before the poll. */
  lemma RestIsFromQueue(queue: seq<DeliveryTask>, k: nat)
    requires k < |queue|
    ensures forall x :: x in Remove(queue, k) ==> x in queue
  {
    forall x | x in Remove(queue, k) ensures x in queue {
      assert x in multiset(Remove(queue, k));
    }
  }

  /** After `n` polls the polled tasks and the queue keep the discipline. */
  lemma {:induction false} DequeueOrder(tasks: seq<DeliveryTask>, n: nat)
    requires n <= |tasks|
    ensures QueueDiscipline(tasks, PollOrder(tasks, n), QueueAfter(tasks, n))
  {
    if n > 0 {
      DequeueOrder(tasks, n - 1);
      PollKeepsDiscipline(tasks, PollOrder(tasks, n - 1), QueueAfter(tasks, n - 1));
    }
  }

  /** Once every task is polled the queue is empty, and the tasks came out
      each exactly once, in non-decreasing (priority, deadline) order. */
  lemma EveryTaskPolledOnce(tasks: seq<DeliveryTask>)
    ensures QueueAfter(tasks, |tasks|) == []
    ensures multiset(PollOrder(tasks, |tasks|)) == multiset(tasks)
    ensures SortedByUrgency(PollOrder(tasks, |tasks|))
  {
    DequeueOrder(tasks, |tasks|);
  }

  // ------------------------------------------------------------ the run

  /** What became of the polled tasks so far, and the forecast cache. */
  datatype Run = Run(outcomes: seq<Outcome>, cache: Cache)

  /** What one turn decides for the polled task, and the cache it leaves. */
  datatype Turned = Turned(outcome: Outcome, cache: Cache)

  /** One turn of the loop for a polled task: search, and place the task on
      the selected slot; the scheduled task's route samples the forecasts
      once more at the slot's start. */
  function Turn(task: DeliveryTask, outcomes: seq<Outcome>, cache: Cache, startTime: int,
                maintenance: map<string, MaintenanceSchedule>, statuses: map<string, VehicleStatus>,
                svc: Services): (t: Turned)
    ensures t.outcome.task == task
  {
    var search := SearchAll(cache, task, startTime, AvailabilityOf(outcomes), maintenance, statuses, svc);
    match Selected(search.evaluations)
    case None => Turned(Unplaced(task), search.cache)
    case Some(slot) =>
      var o, d := task.origin, task.destination;
      var w := Sampled(search.cache, o.lat, o.lon, d.lat, d.lon, SampleCount(), svc.now, svc.weather);
      Turned(Placed(task, slot, w.points), w.cache)
  }

  /** The turn taken after the first `n` ones: the task polled next, from
      the outcomes and the cache those turns left. */
  function NthTurn(tasks: seq<DeliveryTask>, cache: Cache, n: nat, startTime: int,
                   maintenance: map<string, MaintenanceSchedule>, statuses: map<string, VehicleStatus>,
                   svc: Services): (t: Turned)
    requires n < |tasks|
    ensures t.outcome.task == PolledAt(tasks, n)
    decreases n, 1
  {
    var s := Ran(tasks, cache, n, startTime, maintenance, statuses, svc);
    Turn(PolledAt(tasks, n), s.outcomes, s.cache, startTime, maintenance, statuses, svc)
  }

  /** The run after `n + 1` turns: the first `n`, extended by the outcome
      and the cache of the next. */
  function Extended(tasks: seq<DeliveryTask>, cache: Cache, n: nat, startTime: int,
                    maintenance: map<string, MaintenanceSchedule>, statuses: map<string, VehicleStatus>,
                    svc: Services): (r: Run)
    requires n < |tasks|
    ensures |r.outcomes| == n + 1
    decreases n, 2
  {
    var t := NthTurn(tasks, cache, n, startTime, maintenance, statuses, svc);
    Run(Ran(tasks, cache, n, startTime, maintenance, statuses, svc).outcomes + [t.outcome], t.cache)
  }

  /** The first `n` turns, on the tasks in poll order, from an initial
      cache. */
  function Ran(tasks: seq<DeliveryTask>, cache: Cache, n: nat, startTime: int,
               maintenance: map<string, MaintenanceSchedule>, statuses: map<string, VehicleStatus>,
               svc: Services): (r: Run)
    requires n <= |tasks|
    ensures |r.outcomes| == n
    decreases n, 0
  {
    if n == 0 then Run([], cache) else Extended(tasks, cache, n - 1, startTime, maintenance, statuses, svc)
  }

  /** A turn on the next polled task, taken from the state a run reached,
      extends that run by one. */
  lemma RanStep(tasks: seq<DeliveryTask>, cache: Cache, n: nat, startTime: int,
                maintenance: map<string, MaintenanceSchedule>, statuses: map<string, VehicleStatus>,
                svc: Services, outcomes: seq<Outcome>, current: Cache, t: Turned)
    requires n < |tasks|
    requires Run(outcomes, current) == Ran(tasks, cache, n, startTime, maintenance, statuses, svc)
    requires t == Turn(PolledAt(tasks, n), outcomes, current, startTime, maintenance, statuses, svc)
    ensures Ran(tasks, cache, n + 1, startTime, maintenance, statuses, svc) == Run(outcomes + [t.outcome], t.cache)
  {
    assert NthTurn(tasks, cache, n, startTime, maintenance, statuses, svc) == t;
  }

  /** The run records one outcome per poll, in poll order. */
  lemma {:induction false} RanFollowsPollOrder(tasks: seq<DeliveryTask>, cache: Cache, n: nat, startTime: int,
                                               maintenance: map<string, MaintenanceSchedule>,
                                               statuses: map<string, VehicleStatus>, svc: Services)
    requires n <= |tasks|
    ensures Dequeued(Ran(tasks, cache, n, startTime, maintenance, statuses, svc).outcomes) == PollOrder(tasks, n)
  {
    if n > 0 {
      RanFollowsPollOrder(tasks, cache, n - 1, startTime, maintenance, statuses, svc);
      RanOutcomes(tasks, cache, n, startTime, maintenance, statuses, svc);
      DequeuedExtends(Ran(tasks, cache, n - 1, startTime, maintenance, statuses, svc).outcomes,
                      Ran(tasks, cache, n, startTime, maintenance, statuses, svc).outcomes, tasks, n);
    }
  }

  /** A complete run decides every input task exactly once, most urgent
      first: its outcomes, read in order, are the tasks sorted by (priority,
      deadline) with nothing lost and nothing repeated. */
  lemma RunDequeuesEachTaskOnce(tasks: seq<DeliveryTask>, cache: Cache, startTime: int,
                                maintenance: map<string, MaintenanceSchedule>,
                                statuses: map<string, VehicleStatus>, svc: Services)
    ensures var order := Dequeued(Ran(tasks, cache, |tasks|, startTime, maintenance, statuses, svc).outcomes);
      multiset(order) == multiset(tasks) && SortedByUrgency(order)
  {
    RanFollowsPollOrder(tasks, cache, |tasks|, startTime, maintenance, statuses, svc);
    EveryTaskPolledOnce(tasks);
  }

  /** Outcomes that follow the first `n - 1` polls, extended by one for the
      next polled task, follow the first `n`. */
  lemma DequeuedExtends(prior: seq<Outcome>, outcomes: seq<Outcome>, tasks: seq<DeliveryTask>, n: nat)
    requires 0 < n <= |tasks| && |outcomes| == n
    requires Dequeued(prior) == PollOrder(tasks, n - 1)
    requires outcomes[..n - 1] == prior && outcomes[n - 1].task == PolledAt(tasks, n - 1)
    ensures Dequeued(outcomes) == PollOrder(tasks, n)
  {
  }

  /** The outcomes of `n` turns are those of the first `n - 1` and one
      more, for the task polled last. */
  lemma RanOutcomes(tasks: seq<DeliveryTask>, cache: Cache, n: nat, startTime: int,
                    maintenance: map<string, MaintenanceSchedule>,
                    statuses: map<string, VehicleStatus>, svc: Services)
    requires 0 < n <= |tasks|
    ensures var outcomes := Ran(tasks, cache, n, startTime, maintenance, statuses, svc).outcomes;
      && outcomes[..n - 1] == Ran(tasks, cache, n - 1, startTime, maintenance, statuses, svc).outcomes
      && outcomes[n - 1].task == PolledAt(tasks, n - 1)
  {
    var prior := Ran(tasks, cache, n - 1, startTime, maintenance, statuses, svc).outcomes;
    assert (prior + [NthTurn(tasks, cache, n - 1, startTime, maintenance, statuses, svc).outcome])[..n - 1] == prior;
  }

  // ----------------------------------------------------- placement facts

  /** What a placed task's slot satisfied when it was chosen, given the
      outcomes before it: the vehicle was listed for the task's capacity,
      free by the deadline and not due for maintenance at that time, its
      driver was returned for this departure and duration, and the slot
      starts no earlier than the vehicle was free and no later than the
      deadline and lasts the task's estimated duration. */
  predicate PlacedWell(prior: seq<Outcome>, o: Outcome, startTime: int,
                       maintenance: map<string, MaintenanceSchedule>, svc: Services)
    requires o.Placed?
  {
    var v := o.slot.vehicleId;
    var vehicleStart := StartOf(AvailabilityOf(prior), v, startTime);
    && v in svc.fleet.availableVehicles(o.task.requiredCapacity)
    && vehicleStart <= o.task.deadline
    && !MaintenanceDueAt(maintenance, v, vehicleStart)
    && svc.fleet.findAvailableDriver(v, o.slot.startTime, o.task.estimatedDuration) == Some(o.slot.driverId)
    && vehicleStart <= o.slot.startTime <= o.task.deadline
    && o.slot.endTime == o.slot.startTime + o.task.estimatedDuration
  }

  /** Every placed outcome was placed well, given the outcomes before
      it. */
  predicate AllPlacedWell(outcomes: seq<Outcome>, startTime: int,
                          maintenance: map<string, MaintenanceSchedule>, svc: Services)
    decreases |outcomes|
  {
    outcomes != [] ==>
      var init, o := outcomes[..|outcomes| - 1], outcomes[|outcomes| - 1];
      && AllPlacedWell(init, startTime, maintenance, svc)
      && (o.Placed? ==> PlacedWell(init, o, startTime, maintenance, svc))
  }

  /** The task placed by one turn satisfied every check at the time. */
  lemma TurnPlacesWell(task: DeliveryTask, outcomes: seq<Outcome>, cache: Cache, startTime: int,
                       maintenance: map<string, MaintenanceSchedule>, statuses: map<string, VehicleStatus>,
                       svc: Services)
    ensures var t := Turn(task, outcomes, cache, startTime, maintenance, statuses, svc);
      t.outcome.Placed? ==> PlacedWell(outcomes, t.outcome, startTime, maintenance, svc)
  {
    SelectedIsEligible(cache, task, startTime, AvailabilityOf(outcomes), maintenance, statuses, svc);
  }

  /** Every task placed during the run satisfied every check when it was
      placed. */
  lemma {:induction false} RanPlacesWell(tasks: seq<DeliveryTask>, cache: Cache, n: nat, startTime: int,
                                         maintenance: map<string, MaintenanceSchedule>,
                                         statuses: map<string, VehicleStatus>, svc: Services)
    requires n <= |tasks|
    ensures AllPlacedWell(Ran(tasks, cache, n, startTime, maintenance, statuses, svc).outcomes, startTime, maintenance, svc)
  {
    if n > 0 {
      RanPlacesWell(tasks, cache, n - 1, startTime, maintenance, statuses, svc);
      RanPlacesWellStep(tasks, cache, n - 1, startTime, maintenance, statuses, svc);
    }
  }

  /** One more turn keeps every placement well made. */
  lemma RanPlacesWellStep(tasks: seq<DeliveryTask>, cache: Cache, n: nat, startTime: int,
                          maintenance: map<string, MaintenanceSchedule>,
                          statuses: map<string, VehicleStatus>, svc: Services)
    requires n < |tasks|
    requires AllPlacedWell(Ran(tasks, cache, n, startTime, maintenance, statuses, svc).outcomes, startTime, maintenance, svc)
    ensures AllPlacedWell(Ran(tasks, cache, n + 1, startTime, maintenance, statuses, svc).outcomes, startTime, maintenance, svc)
  {
    var s := Ran(tasks, cache, n, startTime, maintenance, statuses, svc);
    var t := NthTurn(tasks, cache, n, startTime, maintenance, statuses, svc);
    assert Ran(tasks, cache, n + 1, startTime, maintenance, statuses, svc).outcomes == s.outcomes + [t.outcome];
    NthTurnPlacesWell(tasks, cache, n, startTime, maintenance, statuses, svc);
    assert (s.outcomes + [t.outcome])[..n] == s.outcomes;
  }

  /** The task placed by the turn after the first `n` satisfied every check
      against the outcomes of those `n`. */
  lemma NthTurnPlacesWell(tasks: seq<DeliveryTask>, cache: Cache, n: nat, startTime: int,
                          maintenance: map<string, MaintenanceSchedule>,
                          statuses: map<string, VehicleStatus>, svc: Services)
    requires n < |tasks|
    ensures var t := NthTurn(tasks, cache, n, startTime, maintenance, statuses, svc);
      t.outcome.Placed? ==>
        PlacedWell(Ran(tasks, cache, n, startTime, maintenance, statuses, svc).outcomes, t.outcome, startTime, maintenance, svc)
  {
    var s := Ran(tasks, cache, n, startTime, maintenance, statuses, svc);
    TurnPlacesWell(PolledAt(tasks, n), s.outcomes, s.cache, startTime, maintenance, statuses, svc);
  }

  /** Each vehicle's list starts no earlier than the run's start, and every
      assignment starts no earlier than the previous one ends. */
  predicate Chained(plan: map<string, seq<Outcome>>, startTime: int) {
    forall v :: v in plan ==>
      && plan[v] != []
      && (forall i :: 0 <= i < |plan[v]| ==> plan[v][i].Placed? && plan[v][i].slot.vehicleId == v)
      && plan[v][0].slot.startTime >= startTime
      && forall i :: 0 < i < |plan[v]| ==> plan[v][i - 1].slot.endTime <= plan[v][i].slot.startTime
  }

  /** Placing every task where the checks allowed chains each vehicle's
      list: a new assignment starts no earlier than the vehicle's previous
      assignment ends. */
  lemma {:induction false} PlacedWellIsChained(outcomes: seq<Outcome>, startTime: int,
                                               maintenance: map<string, MaintenanceSchedule>, svc: Services)
    requires AllPlacedWell(outcomes, startTime, maintenance, svc)
    ensures Chained(PlanOf(outcomes), startTime)
    decreases |outcomes|
  {
    if outcomes != [] {
      var init := outcomes[..|outcomes| - 1];
      var o := outcomes[|outcomes| - 1];
      PlacedWellIsChained(init, startTime, maintenance, svc);
      assert outcomes == init + [o];
      if o.Placed? {
        PlanShape(init);
        PlanShapeStep(init, o);
        ChainExtend(PlanOf(init), AvailabilityOf(init), o, startTime);
      } else {
        UnplacedChangesNothing(init, o.task);
      }
    }
  }

  /** Appending an assignment that starts once its vehicle is free keeps the
      lists chained. */
  lemma ChainExtend(plan: map<string, seq<Outcome>>, availability: map<string, int>, o: Outcome, startTime: int)
    requires Chained(plan, startTime)
    requires plan.Keys == availability.Keys
    requires forall v :: v in plan ==> availability[v] == plan[v][|plan[v]| - 1].slot.endTime
    requires o.Placed? && StartOf(availability, o.slot.vehicleId, startTime) <= o.slot.startTime
    ensures var v := o.slot.vehicleId;
      Chained(plan[v := (if v in plan then plan[v] else []) + [o]], startTime)
  {
    var v := o.slot.vehicleId;
    var list := if v in plan then plan[v] else [];
    var list' := list + [o];
    forall i | 0 < i < |list'|
      ensures list'[i - 1].slot.endTime <= list'[i].slot.startTime
    {
      if i < |list| {
        assert list'[i - 1] == list[i - 1] && list'[i] == list[i];
      }
    }
  }

  /** The lists of a whole run are chained. */
  lemma NoOverlap(tasks: seq<DeliveryTask>, cache: Cache, startTime: int,
                  maintenance: map<string, MaintenanceSchedule>,
                  statuses: map<string, VehicleStatus>, svc: Services)
    ensures Chained(PlanOf(Ran(tasks, cache, |tasks|, startTime, maintenance, statuses, svc).outcomes), startTime)
  {
    RanPlacesWell(tasks, cache, |tasks|, startTime, maintenance, statuses, svc);
    PlacedWellIsChained(Ran(tasks, cache, |tasks|, startTime, maintenance, statuses, svc).outcomes, startTime, maintenance, svc);
  }
}
