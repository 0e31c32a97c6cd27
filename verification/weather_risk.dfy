/** The stateless half of the weather-aware routing service: how sampled
    weather turns into a risk score, advisories and small detours of a
    straight-line route. */
module WeatherRisk {
  import opened Common

  datatype WeatherCondition = CLEAR | RAIN | SNOW | FOG | STORM

  datatype RoutePoint = RoutePoint(lat: real, lon: real)

  datatype WeatherPoint = WeatherPoint(lat: real, lon: real, condition: WeatherCondition, severity: real)

  datatype WeatherAwareRoute = WeatherAwareRoute(
    route: seq<RoutePoint>,
    weatherPoints: seq<WeatherPoint>,
    riskScore: real,
    advisories: seq<string>)

  /** The geometry the service leaves to floating-point trigonometry:
      `distance` is the haversine distance in km between two positions,
      `awayFrom(p, w)` the unit step (sin, cos of the bearing from `p` to `w`
      turned by a right angle) that moves `p` sideways away from `w`. */
  datatype Geometry = Geometry(
    distance: (real, real, real, real) -> real,
    awayFrom: (RoutePoint, WeatherPoint) -> (real, real))

  // ---------------------------------------------------------------- risk

  function Weight(c: WeatherCondition): real {
    match c
    case RAIN => 0.3
    case SNOW => 0.8
    case FOG => 0.5
    case STORM => 1.0
    case CLEAR => 0.0
  }

  /** At equal severity a storm weighs most, then snow, fog, rain, and
      clear weather not at all. */
  lemma WeightOrder()
    ensures Weight(STORM) > Weight(SNOW) > Weight(FOG) > Weight(RAIN) > Weight(CLEAR) == 0.0
  {
  }

  function Contribution(p: WeatherPoint): real {
    p.severity * Weight(p.condition)
  }

  /** The unclamped weighted sum, built from the front as the loop does. */
  function RiskSum(points: seq<WeatherPoint>): real
    decreases |points|
  {
    if points == [] then 0.0
    else RiskSum(points[..|points| - 1]) + Contribution(points[|points| - 1])
  }

  /** The route risk: the weighted sum capped at 1 (the code caps only from
      above). */
  function RiskScore(points: seq<WeatherPoint>): (r: real)
    ensures r <= 1.0
    ensures points == [] ==> r == 0.0
  {
    Min(1.0, RiskSum(points))
  }

  predicate NonNegativeSeverities(points: seq<WeatherPoint>) {
    forall p :: p in points ==> p.severity >= 0.0
  }

  method CalculateWeatherRiskScore(points: seq<WeatherPoint>) returns (risk: real)
    ensures risk == RiskScore(points)
    ensures NonNegativeSeverities(points) ==> 0.0 <= risk <= 1.0
  {
    var sum := 0.0;
    var i := 0;
    while i < |points|
      invariant 0 <= i <= |points|
      invariant sum == RiskSum(points[..i])
    {
      var point := points[i];
      assert points[..i + 1][..i] == points[..i];
      match point.condition {
        case RAIN => sum := sum + point.severity * 0.3;
        case SNOW => sum := sum + point.severity * 0.8;
        case FOG => sum := sum + point.severity * 0.5;
        case STORM => sum := sum + point.severity * 1.0;
        case CLEAR =>
      }
      i := i + 1;
    }
    assert points[..i] == points;
    risk := Min(1.0, sum);
    if NonNegativeSeverities(points) {
      RiskScoreBounds(points);
    }
  }

  lemma {:induction false} RiskSumNonNegative(points: seq<WeatherPoint>)
    requires NonNegativeSeverities(points)
    ensures RiskSum(points) >= 0.0
  {
    if points != [] {
      var init := points[..|points| - 1];
      assert forall p :: p in init ==> p in points;
      RiskSumNonNegative(init);
    }
  }

  /** With non-negative severities the score lies in [0, 1]. */
  lemma RiskScoreBounds(points: seq<WeatherPoint>)
    requires NonNegativeSeverities(points)
    ensures 0.0 <= RiskScore(points) <= 1.0
  {
    RiskSumNonNegative(points);
  }

  /** The sum is additive over concatenation, so the order in which points
      are sampled does not change it. */
  lemma {:induction false} RiskSumAppend(a: seq<WeatherPoint>, b: seq<WeatherPoint>)
    ensures RiskSum(a + b) == RiskSum(a) + RiskSum(b)
    decreases |b|
  {
    if b != [] {
      var b' := b[..|b| - 1];
      assert (a + b)[..|a + b| - 1] == a + b';
      RiskSumAppend(a, b');
    } else {
      assert a + b == a;
    }
  }

  /** One more point of non-negative severity never lowers the score. */
  lemma RiskScoreMonotone(points: seq<WeatherPoint>, extra: seq<WeatherPoint>)
    requires NonNegativeSeverities(extra)
    ensures RiskScore(points) <= RiskScore(points + extra)
  {
    RiskSumAppend(points, extra);
    RiskSumNonNegative(extra);
  }

  // ------------------------------------------------------------ advisories

  /** How many sampled points report condition `c`. */
  function Count(points: seq<WeatherPoint>, c: WeatherCondition): nat
    decreases |points|
  {
    if points == [] then 0
    else Count(points[..|points| - 1], c) + (if points[|points| - 1].condition == c then 1 else 0)
  }

  lemma {:induction false} CountAtMostLength(points: seq<WeatherPoint>, c: WeatherCondition)
    ensures Count(points, c) <= |points|
  {
    if points != [] {
      CountAtMostLength(points[..|points| - 1], c);
    }
  }

  lemma {:induction false} CountPositive(points: seq<WeatherPoint>, c: WeatherCondition)
    ensures Count(points, c) > 0 <==> exists i :: 0 <= i < |points| && points[i].condition == c
  {
    if points != [] {
      var init := points[..|points| - 1];
      CountPositive(init, c);
      if exists i :: 0 <= i < |init| && init[i].condition == c {
        var i :| 0 <= i < |init| && init[i].condition == c;
        assert points[i].condition == c;
      }
    }
  }

  /** The canned advice per condition; clear weather falls to the default. */
  const RAIN_ADVISORY := "Expect rain along route. Maintain safe following distance."
  const SNOW_ADVISORY := "Snow conditions expected. Consider winter equipment."
  const FOG_ADVISORY := "Foggy conditions. Use fog lights and reduce speed."
  const STORM_ADVISORY := "Severe weather warning. Consider postponing travel."
  const DEFAULT_ADVISORY := "Check weather conditions before departure."

  function AdvisoryFor(c: WeatherCondition): string {
    match c
    case RAIN => RAIN_ADVISORY
    case SNOW => SNOW_ADVISORY
    case FOG => FOG_ADVISORY
    case STORM => STORM_ADVISORY
    case CLEAR => DEFAULT_ADVISORY
  }

  /** The five texts differ in length. */
  function AdvisoryLength(c: WeatherCondition): nat {
    match c
    case RAIN => 58
    case SNOW => 52
    case FOG => 50
    case STORM => 51
    case CLEAR => 42
  }

  lemma AdvisoryLengths(c: WeatherCondition)
    ensures |AdvisoryFor(c)| == AdvisoryLength(c)
  {
    match c
    case RAIN =>
    case SNOW =>
    case FOG =>
    case STORM =>
    case CLEAR =>
  }

  /** Different conditions give different advice. */
  lemma AdvisoryForInjective(c: WeatherCondition, d: WeatherCondition)
    requires c != d
    ensures AdvisoryFor(c) != AdvisoryFor(d)
  {
    AdvisoryLengths(c);
    AdvisoryLengths(d);
  }

  /** Tally of conditions, built as the `merge(condition, 1, sum)` loop
      builds it: a condition is a key exactly when it was seen. */
  method CountConditions(points: seq<WeatherPoint>) returns (counts: map<WeatherCondition, nat>)
    ensures forall c :: c in counts <==> Count(points, c) > 0
    ensures forall c :: c in counts ==> counts[c] == Count(points, c)
  {
    counts := map[];
    var i := 0;
    while i < |points|
      invariant 0 <= i <= |points|
      invariant forall c :: c in counts <==> Count(points[..i], c) > 0
      invariant forall c :: c in counts ==> counts[c] == Count(points[..i], c)
    {
      var c := points[i].condition;
      assert points[..i + 1][..i] == points[..i];
      counts := counts[c := if c in counts then counts[c] + 1 else 1];
      i := i + 1;
    }
    assert points[..i] == points;
  }

  /** Conditions that occur in more than a third of the points (integer
      division), each advised once. */
  predicate Prevalent(points: seq<WeatherPoint>, c: WeatherCondition) {
    Count(points, c) > |points| / 3
  }

  /** `advisories` holds the advice for every prevalent condition, nothing
      else, and no text twice. */
  ghost predicate AdvisesPrevalent(advisories: seq<string>, points: seq<WeatherPoint>) {
    && (forall c :: AdvisoryFor(c) in advisories <==> Prevalent(points, c))
    && (forall a :: a in advisories ==> exists c :: a == AdvisoryFor(c) && Prevalent(points, c))
    && (forall i, j :: 0 <= i < j < |advisories| ==> advisories[i] != advisories[j])
  }

  /** One advisory per prevalent condition, in the map's iteration order
      (which the model leaves open: any order may come out). */
  method GenerateWeatherAdvisories(points: seq<WeatherPoint>) returns (advisories: seq<string>)
    ensures AdvisesPrevalent(advisories, points)
    ensures points == [] ==> advisories == []
  {
    var counts := CountConditions(points);
    assert points == [] ==> counts.Keys == {};
    advisories := [];
    var pending := counts.Keys;
    ghost var advised: seq<WeatherCondition> := [];
    while pending != {}
      invariant pending <= counts.Keys
      invariant points == [] ==> advisories == []
      invariant |advisories| == |advised|
      invariant forall i :: 0 <= i < |advised| ==> advisories[i] == AdvisoryFor(advised[i])
      invariant forall c :: c in advised <==> c in counts && c !in pending && Prevalent(points, c)
      invariant forall i, j :: 0 <= i < j < |advised| ==> advised[i] != advised[j]
      decreases pending
    {
      var c :| c in pending;
      if counts[c] > |points| / 3 {
        advisories := advisories + [AdvisoryFor(c)];
        advised := advised + [c];
      }
      pending := pending - {c};
    }
    AdvisoriesOfDistinctConditions(points, advised, advisories);
  }

  /** Advice for distinct conditions is itself distinct, and covers exactly
      the advice for the conditions listed. */
  lemma AdvisoriesOfDistinctConditions(points: seq<WeatherPoint>, advised: seq<WeatherCondition>, advisories: seq<string>)
    requires |advisories| == |advised|
    requires forall i :: 0 <= i < |advised| ==> advisories[i] == AdvisoryFor(advised[i])
    requires forall c :: c in advised <==> Prevalent(points, c)
    requires forall i, j :: 0 <= i < j < |advised| ==> advised[i] != advised[j]
    ensures AdvisesPrevalent(advisories, points)
  {
    forall i, j | 0 <= i < j < |advisories| ensures advisories[i] != advisories[j] {
      AdvisoryForInjective(advised[i], advised[j]);
    }
    forall c ensures AdvisoryFor(c) in advisories <==> Prevalent(points, c) {
      if Prevalent(points, c) {
        var i :| 0 <= i < |advised| && advised[i] == c;
        assert advisories[i] == AdvisoryFor(c);
      }
      if AdvisoryFor(c) in advisories {
        var i :| 0 <= i < |advisories| && advisories[i] == AdvisoryFor(c);
        if advised[i] != c {
          AdvisoryForInjective(advised[i], c);
        }
        assert advised[i] in advised;
      }
    }
    forall a | a in advisories ensures exists c :: a == AdvisoryFor(c) && Prevalent(points, c) {
      var i :| 0 <= i < |advisories| && advisories[i] == a;
      assert advised[i] in advised;
    }
  }

  /** Counts of distinct conditions add up to at most the number of points,
      so at most two conditions can each exceed a third of them. */
  lemma {:induction false} CountsSumAtMostLength(points: seq<WeatherPoint>, c: WeatherCondition, d: WeatherCondition, e: WeatherCondition)
    requires c != d && d != e && c != e
    ensures Count(points, c) + Count(points, d) + Count(points, e) <= |points|
  {
    if points != [] {
      CountsSumAtMostLength(points[..|points| - 1], c, d, e);
    }
  }

  lemma AtMostTwoPrevalent(points: seq<WeatherPoint>, c: WeatherCondition, d: WeatherCondition, e: WeatherCondition)
    requires c != d && d != e && c != e
    ensures !(Prevalent(points, c) && Prevalent(points, d) && Prevalent(points, e))
  {
    CountsSumAtMostLength(points, c, d, e);
  }

  // --------------------------------------------------------- route shape

  /** Position `i` of `n` equal steps from `a` to `b`. */
  function Interpolate(a: real, b: real, i: int, n: int): real
    requires n > 0
  {
    a + (b - a) * ((i as real) / (n as real))
  }

  const BASE_ROUTE_STEPS := 20

  /** Point `i` of the straight line from start to end in 20 equal steps. */
  function BasePoint(startLat: real, startLon: real, endLat: real, endLon: real, i: int): RoutePoint {
    RoutePoint(Interpolate(startLat, endLat, i, BASE_ROUTE_STEPS), Interpolate(startLon, endLon, i, BASE_ROUTE_STEPS))
  }

  /** The straight line from start to end in 20 equal steps: a placeholder
      for a road routing engine. */
  method CalculateBaseRoute(startLat: real, startLon: real, endLat: real, endLon: real)
    returns (route: seq<RoutePoint>)
    ensures |route| == BASE_ROUTE_STEPS + 1
    ensures forall i :: 0 <= i < |route| ==> route[i] == BasePoint(startLat, startLon, endLat, endLon, i)
    ensures route[0] == RoutePoint(startLat, startLon)
    ensures route[BASE_ROUTE_STEPS] == RoutePoint(endLat, endLon)
  {
    route := [];
    var i := 0;
    while i <= BASE_ROUTE_STEPS
      invariant 0 <= i <= BASE_ROUTE_STEPS + 1
      invariant |route| == i
      invariant forall k :: 0 <= k < i ==> route[k] == BasePoint(startLat, startLon, endLat, endLon, k)
    {
      var progress := (i as real) / (BASE_ROUTE_STEPS as real);
      var point := RoutePoint(startLat + (endLat - startLat) * progress, startLon + (endLon - startLon) * progress);
      assert point.lat == Interpolate(startLat, endLat, i, BASE_ROUTE_STEPS);
      assert point.lon == Interpolate(startLon, endLon, i, BASE_ROUTE_STEPS);
      route := route + [point];
      i := i + 1;
    }
  }

  // ------------------------------------------------------ route adjustment

  function DistanceTo(geo: Geometry, p: RoutePoint, w: WeatherPoint): real {
    geo.distance(p.lat, p.lon, w.lat, w.lon)
  }

  /** The index `Stream.min` settles on, scanning from `i` with `best` the
      closest so far: a later point replaces it only when strictly closer. */
  function NearestFrom(geo: Geometry, p: RoutePoint, points: seq<WeatherPoint>, best: nat, i: nat): (k: nat)
    requires best < i <= |points|
    requires forall j :: 0 <= j < best ==> DistanceTo(geo, p, points[j]) > DistanceTo(geo, p, points[best])
    requires forall j :: best < j < i ==> DistanceTo(geo, p, points[best]) <= DistanceTo(geo, p, points[j])
    ensures k < |points|
    ensures forall j :: 0 <= j < |points| ==> DistanceTo(geo, p, points[k]) <= DistanceTo(geo, p, points[j])
    ensures forall j :: 0 <= j < k ==> DistanceTo(geo, p, points[j]) > DistanceTo(geo, p, points[k])
    decreases |points| - i
  {
    if i == |points| then best
    else if DistanceTo(geo, p, points[best]) <= DistanceTo(geo, p, points[i]) then NearestFrom(geo, p, points, best, i + 1)
    else NearestFrom(geo, p, points, i, i + 1)
  }

  /** `points[k]` is at least as close to `p` as every sampled point and
      strictly closer than every point before it. */
  ghost predicate IsFirstNearest(geo: Geometry, p: RoutePoint, points: seq<WeatherPoint>, k: int) {
    && 0 <= k < |points|
    && (forall j :: 0 <= j < |points| ==> DistanceTo(geo, p, points[k]) <= DistanceTo(geo, p, points[j]))
    && (forall j :: 0 <= j < k ==> DistanceTo(geo, p, points[j]) > DistanceTo(geo, p, points[k]))
  }

  /** The closest sampled weather point, the first among equally close
      ones; none when nothing was sampled. */
  function FindNearestWeatherPoint(geo: Geometry, p: RoutePoint, points: seq<WeatherPoint>): (r: Option<WeatherPoint>)
    ensures r.None? <==> points == []
    ensures r.Some? ==> r.value in points
  {
    if points == [] then None else Some(points[NearestFrom(geo, p, points, 0, 1)])
  }

  /** The point found is a first nearest one. */
  lemma NearestIsFirstNearest(geo: Geometry, p: RoutePoint, points: seq<WeatherPoint>)
    requires points != []
    ensures exists k :: IsFirstNearest(geo, p, points, k) && FindNearestWeatherPoint(geo, p, points) == Some(points[k])
  {
    var k := NearestFrom(geo, p, points, 0, 1);
    assert IsFirstNearest(geo, p, points, k);
  }

  predicate IsHighRiskWeather(w: WeatherPoint) {
    w.severity > 0.7 || w.condition == STORM
  }

  const DETOUR_DISTANCE := 0.01

  /** The point moved about 1 km sideways from the bad weather. */
  function AdjustRoutePoint(geo: Geometry, p: RoutePoint, w: WeatherPoint): RoutePoint {
    var (dLat, dLon) := geo.awayFrom(p, w);
    RoutePoint(p.lat + DETOUR_DISTANCE * dLat, p.lon + DETOUR_DISTANCE * dLon)
  }

  /** Where an interior point ends up when the route risk is high. */
  function Detoured(geo: Geometry, p: RoutePoint, points: seq<WeatherPoint>): RoutePoint {
    match FindNearestWeatherPoint(geo, p, points)
    case Some(w) => if IsHighRiskWeather(w) then AdjustRoutePoint(geo, p, w) else p
    case None => p
  }

  const HIGH_RISK_THRESHOLD := 0.5

  /** Point `i` of the weather-aware route between two positions: the
      straight line's, except that when the sampled risk exceeds 0.5 an
      interior point is detoured from severe weather nearest to it. */
  function RoutedPoint(geo: Geometry, startLat: real, startLon: real, endLat: real, endLon: real,
                       weatherPoints: seq<WeatherPoint>, i: int): RoutePoint {
    var base := BasePoint(startLat, startLon, endLat, endLon, i);
    if RiskScore(weatherPoints) > HIGH_RISK_THRESHOLD && 0 < i < BASE_ROUTE_STEPS
    then Detoured(geo, base, weatherPoints)
    else base
  }

  /** The `for (i = 1; i < size - 1; i++)` pass: each interior point whose
      nearest sampled weather is severe or stormy is replaced in place. */
  method DetourInterior(geo: Geometry, baseRoute: seq<RoutePoint>, weatherPoints: seq<WeatherPoint>)
    returns (route: seq<RoutePoint>)
    ensures |route| == |baseRoute|
    ensures forall i :: 0 <= i < |baseRoute| ==>
      route[i] == if 0 < i < |baseRoute| - 1 then Detoured(geo, baseRoute[i], weatherPoints) else baseRoute[i]
  {
    route := baseRoute;
    var i := 1;
    while i < |route| - 1
      invariant 1 <= i
      invariant |route| == |baseRoute|
      invariant |baseRoute| >= 2 ==> i <= |baseRoute| - 1
      invariant forall k :: 0 <= k < |baseRoute| ==>
        route[k] == if 0 < k < i then Detoured(geo, baseRoute[k], weatherPoints) else baseRoute[k]
    {
      var current := route[i];
      var nearestWeather := FindNearestWeatherPoint(geo, current, weatherPoints);
      if nearestWeather.Some? && IsHighRiskWeather(nearestWeather.value) {
        route := route[i := AdjustRoutePoint(geo, current, nearestWeather.value)];
      }
      i := i + 1;
    }
  }

  /** Copy the base route; when the risk exceeds 0.5, move each interior
      point whose nearest sampled weather is severe or stormy. */
  method AdjustRouteForWeather(geo: Geometry, baseRoute: seq<RoutePoint>, weatherPoints: seq<WeatherPoint>)
    returns (r: WeatherAwareRoute)
    ensures r.weatherPoints == weatherPoints
    ensures r.riskScore == RiskScore(weatherPoints)
    ensures |r.route| == |baseRoute|
    ensures |baseRoute| > 0 ==> r.route[0] == baseRoute[0]
    ensures |baseRoute| > 0 ==> r.route[|baseRoute| - 1] == baseRoute[|baseRoute| - 1]
    ensures RiskScore(weatherPoints) <= HIGH_RISK_THRESHOLD ==> r.route == baseRoute
    ensures RiskScore(weatherPoints) > HIGH_RISK_THRESHOLD ==>
      forall i :: 0 < i < |baseRoute| - 1 ==> r.route[i] == Detoured(geo, baseRoute[i], weatherPoints)
    ensures forall i :: 0 <= i < |baseRoute| && r.route[i] != baseRoute[i] ==>
      0 < i < |baseRoute| - 1 && RiskScore(weatherPoints) > HIGH_RISK_THRESHOLD &&
      FindNearestWeatherPoint(geo, baseRoute[i], weatherPoints).Some? &&
      IsHighRiskWeather(FindNearestWeatherPoint(geo, baseRoute[i], weatherPoints).value)
    ensures AdvisesPrevalent(r.advisories, weatherPoints)
  {
    var adjustedRoute := baseRoute;
    var riskScore := CalculateWeatherRiskScore(weatherPoints);
    if riskScore > HIGH_RISK_THRESHOLD {
      adjustedRoute := DetourInterior(geo, baseRoute, weatherPoints);
    }
    var advisories := GenerateWeatherAdvisories(weatherPoints);
    r := WeatherAwareRoute(adjustedRoute, weatherPoints, riskScore, advisories);
  }
}
