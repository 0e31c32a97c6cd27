/** The stateful half of the weather-aware routing service: a forecast
    cache keyed by rounded coordinates with a 30-minute lifetime, route
    sampling through that cache, and the search for the least risky
    departure on a 30-minute grid. */
module WeatherAwareRouting {
  import opened Common
  import opened WeatherRisk

  /** The provider's reply; its content is only read through
      `Provider.condition` and `Provider.severity`. */
  datatype Forecast = Forecast(payload: string)

  datatype WeatherCache = WeatherCache(forecast: Forecast, timestamp: int)

  type Cache = map<string, WeatherCache>

  /** What the service calls but does not implement: the cache key
      (coordinates formatted to four decimals), the forecast provider
      (`fetch(lat, lon, now)`, `None` for a null reply), the classification
      of a forecast into a condition and a severity, and the geometry. */
  datatype Provider = Provider(
    cacheKey: (real, real) -> string,
    fetch: (real, real, int) -> Option<Forecast>,
    condition: Forecast -> WeatherCondition,
    severity: Forecast -> real,
    geo: Geometry)

  const CACHE_DURATION_MINUTES := 30

  /** An entry is usable while its timestamp plus 30 minutes is after now. */
  predicate IsValidCache(cached: Option<WeatherCache>, now: int) {
    cached.Some? && cached.value.timestamp + CACHE_DURATION_MINUTES > now
  }

  function CachedAt(cache: Cache, key: string): Option<WeatherCache> {
    if key in cache then Some(cache[key]) else None
  }

  /** The forecast a lookup returns and the cache it leaves behind. */
  datatype Lookup = Lookup(forecast: Option<Forecast>, cache: Cache)

  function ForecastLookup(cache: Cache, lat: real, lon: real, now: int, p: Provider): Lookup {
    var key := p.cacheKey(lat, lon);
    var cached := CachedAt(cache, key);
    if IsValidCache(cached, now) then Lookup(Some(cached.value.forecast), cache)
    else
      var forecast := p.fetch(lat, lon, now);
      Lookup(forecast, if forecast.Some? then cache[key := WeatherCache(forecast.value, now)] else cache)
  }

  /** A valid entry is returned as it is, and the cache stays unchanged. */
  lemma CacheHit(cache: Cache, lat: real, lon: real, now: int, p: Provider)
    requires IsValidCache(CachedAt(cache, p.cacheKey(lat, lon)), now)
    ensures ForecastLookup(cache, lat, lon, now, p)
         == Lookup(Some(cache[p.cacheKey(lat, lon)].forecast), cache)
  {
  }

  /** On a miss the provider's reply is returned; a reply is stored under
      the key with the current time, a null reply is not stored. */
  lemma CacheMiss(cache: Cache, lat: real, lon: real, now: int, p: Provider)
    requires !IsValidCache(CachedAt(cache, p.cacheKey(lat, lon)), now)
    ensures var r := ForecastLookup(cache, lat, lon, now, p);
      && r.forecast == p.fetch(lat, lon, now)
      && (r.forecast.None? ==> r.cache == cache)
      && (r.forecast.Some? ==> r.cache == cache[p.cacheKey(lat, lon) := WeatherCache(r.forecast.value, now)])
  {
  }

  /** No lookup touches another key. */
  lemma OtherKeysUntouched(cache: Cache, lat: real, lon: real, now: int, p: Provider, other: string)
    requires other != p.cacheKey(lat, lon)
    ensures CachedAt(ForecastLookup(cache, lat, lon, now, p).cache, other) == CachedAt(cache, other)
  {
  }

  /** An entry stored at `t` serves lookups strictly before `t + 30 min` and
      none from then on. */
  lemma EntryLifetime(f: Forecast, t: int, now: int)
    ensures IsValidCache(Some(WeatherCache(f, t)), now) <==> now < t + CACHE_DURATION_MINUTES
  {
  }

  /** Repeating a lookup at the same instant returns the same forecast and
      leaves the cache as the first one left it. */
  lemma LookupIdempotent(cache: Cache, lat: real, lon: real, now: int, p: Provider)
    ensures var r := ForecastLookup(cache, lat, lon, now, p);
      ForecastLookup(r.cache, lat, lon, now, p) == r
  {
  }

  // -------------------------------------------------------------- sampling

  const SAMPLE_STEPS := 10

  /** The 11 sample points `0..10`; a function rather than a literal so that
      the verifier unfolds `Sampled` only on demand. */
  function SampleCount(): nat { SAMPLE_STEPS + 1 }

  /** Sampled points and the cache after the lookups that produced them. */
  datatype Sampling = Sampling(points: seq<WeatherPoint>, cache: Cache)

  /** The point a sample contributes: none when no forecast was found. */
  function Observed(lat: real, lon: real, forecast: Option<Forecast>, p: Provider): seq<WeatherPoint> {
    if forecast.Some?
    then [WeatherPoint(lat, lon, p.condition(forecast.value), p.severity(forecast.value))]
    else []
  }

  /** The weather at the first `n` sample points `0..n-1` of the straight
      line (11 in all), looked up one after the other through the cache; a
      point whose forecast is null is skipped. */
  function Sampled(cache: Cache, startLat: real, startLon: real, endLat: real, endLon: real,
                   n: nat, now: int, p: Provider): Sampling
  {
    if n == 0 then Sampling([], cache)
    else
      var s := Sampled(cache, startLat, startLon, endLat, endLon, n - 1, now, p);
      var lat := Interpolate(startLat, endLat, n - 1, SAMPLE_STEPS);
      var lon := Interpolate(startLon, endLon, n - 1, SAMPLE_STEPS);
      var l := ForecastLookup(s.cache, lat, lon, now, p);
      Sampling(s.points + Observed(lat, lon, l.forecast, p), l.cache)
  }

  /** `points[j]` sits at sample index `at[j]`, the indices rise strictly
      and stay below `n`. */
  ghost predicate SampledAt(points: seq<WeatherPoint>, at: seq<int>, n: int,
                            startLat: real, startLon: real, endLat: real, endLon: real) {
    && |at| == |points|
    && (forall j :: 0 <= j < |at| ==> 0 <= at[j] < n)
    && (forall j, k :: 0 <= j < k < |at| ==> at[j] < at[k])
    && (forall j :: 0 <= j < |at| ==>
          points[j].lat == Interpolate(startLat, endLat, at[j], SAMPLE_STEPS) &&
          points[j].lon == Interpolate(startLon, endLon, at[j], SAMPLE_STEPS))
  }

  /** The sample index of each point `Sampled` keeps. */
  ghost function SampleIndices(cache: Cache, startLat: real, startLon: real, endLat: real, endLon: real,
                               n: nat, now: int, p: Provider): seq<int>
  {
    if n == 0 then []
    else
      var s := Sampled(cache, startLat, startLon, endLat, endLon, n - 1, now, p);
      var lat := Interpolate(startLat, endLat, n - 1, SAMPLE_STEPS);
      var lon := Interpolate(startLon, endLon, n - 1, SAMPLE_STEPS);
      var l := ForecastLookup(s.cache, lat, lon, now, p);
      SampleIndices(cache, startLat, startLon, endLat, endLon, n - 1, now, p) + (if l.forecast.Some? then [n - 1] else [])
  }

  /** At most one point per sample index, in order along the line, so at
      most `n` points from `n` samples. */
  lemma {:induction false} SamplingShape(cache: Cache, startLat: real, startLon: real, endLat: real, endLon: real,
                                         n: nat, now: int, p: Provider)
    ensures var s := Sampled(cache, startLat, startLon, endLat, endLon, n, now, p);
      && |s.points| <= n
      && SampledAt(s.points, SampleIndices(cache, startLat, startLon, endLat, endLon, n, now, p), n,
                   startLat, startLon, endLat, endLon)
  {
    if n > 0 {
      var s := Sampled(cache, startLat, startLon, endLat, endLon, n - 1, now, p);
      var at := SampleIndices(cache, startLat, startLon, endLat, endLon, n - 1, now, p);
      SamplingShape(cache, startLat, startLon, endLat, endLon, n - 1, now, p);
      var lat := Interpolate(startLat, endLat, n - 1, SAMPLE_STEPS);
      var lon := Interpolate(startLon, endLon, n - 1, SAMPLE_STEPS);
      var l := ForecastLookup(s.cache, lat, lon, now, p);
      ExtendSampledAt(s.points, at, Observed(lat, lon, l.forecast, p), if l.forecast.Some? then [n - 1] else [],
                      n - 1, startLat, startLon, endLat, endLon);
    }
  }

  lemma ExtendSampledAt(points: seq<WeatherPoint>, at: seq<int>, more: seq<WeatherPoint>, moreAt: seq<int>, m: int,
                        startLat: real, startLon: real, endLat: real, endLon: real)
    requires SampledAt(points, at, m, startLat, startLon, endLat, endLon)
    requires (more == [] && moreAt == []) || (|more| == 1 && moreAt == [m] && 0 <= m &&
      more[0].lat == Interpolate(startLat, endLat, m, SAMPLE_STEPS) &&
      more[0].lon == Interpolate(startLon, endLon, m, SAMPLE_STEPS))
    ensures SampledAt(points + more, at + moreAt, m + 1, startLat, startLon, endLat, endLon)
  {
  }

  /** When every lookup yields a forecast (the provider never replies null),
      every sample gives a point. */
  lemma {:induction false} SamplingComplete(cache: Cache, startLat: real, startLon: real, endLat: real, endLon: real,
                                            n: nat, now: int, p: Provider)
    requires forall lat, lon, t :: p.fetch(lat, lon, t).Some?
    ensures |Sampled(cache, startLat, startLon, endLat, endLon, n, now, p).points| == n
  {
    if n > 0 {
      SamplingComplete(cache, startLat, startLon, endLat, endLon, n - 1, now, p);
    }
  }

  /** The classification the service ships with: every forecast reads as
      clear weather of severity 0. */
  ghost predicate ClassifiesAllClear(p: Provider) {
    forall f :: p.condition(f) == CLEAR && p.severity(f) == 0.0
  }

  /** With that classification every sample is clear and harmless. */
  lemma {:induction false} ClearSamples(cache: Cache, startLat: real, startLon: real, endLat: real, endLon: real,
                                        n: nat, now: int, p: Provider)
    requires ClassifiesAllClear(p)
    ensures forall w :: w in Sampled(cache, startLat, startLon, endLat, endLon, n, now, p).points ==>
      w.condition == CLEAR && w.severity == 0.0
  {
    if n > 0 {
      ClearSamples(cache, startLat, startLon, endLat, endLon, n - 1, now, p);
    }
  }

  lemma {:induction false} ClearRiskIsZero(points: seq<WeatherPoint>)
    requires forall w :: w in points ==> w.condition == CLEAR
    ensures RiskScore(points) == 0.0
  {
    if points != [] {
      var init := points[..|points| - 1];
      assert forall w :: w in init ==> w in points;
      ClearRiskIsZero(init);
    }
  }

  // ---------------------------------------------------- departure search

  const DEPARTURE_STEP_MINUTES := 30

  /** Route risks seen at the first `n` grid departures, each sampled
      through the cache the previous one left. The departure time itself
      plays no part in a sample. */
  datatype Scan = Scan(risks: seq<real>, cache: Cache)

  function Scanned(cache: Cache, startLat: real, startLon: real, endLat: real, endLon: real,
                   n: nat, now: int, p: Provider): Scan
  {
    if n == 0 then Scan([], cache)
    else
      var s := Scanned(cache, startLat, startLon, endLat, endLon, n - 1, now, p);
      var w := Sampled(s.cache, startLat, startLon, endLat, endLon, SampleCount(), now, p);
      Scan(s.risks + [RiskScore(w.points)], w.cache)
  }

  /** Number of grid departures `start + 30k` strictly before `end`. */
  function GridSize(start: int, end: int): nat {
    if start >= end then 0 else (end - start - 1) / DEPARTURE_STEP_MINUTES + 1
  }

  /** `k` grid steps reach the end of the window exactly when `k` is the
      grid size: the last step is still inside, the next one is not. */
  lemma GridSizeExact(start: int, end: int, k: nat)
    requires start + DEPARTURE_STEP_MINUTES * k >= end
    requires k == 0 || start + DEPARTURE_STEP_MINUTES * (k - 1) < end
    ensures GridSize(start, end) == k
  {
    if k > 0 {
      var d := end - start - 1;
      assert DEPARTURE_STEP_MINUTES * (k - 1) <= d < DEPARTURE_STEP_MINUTES * k;
      assert d / DEPARTURE_STEP_MINUTES == k - 1;
    }
  }

  lemma {:induction false} ScanLength(cache: Cache, startLat: real, startLon: real, endLat: real, endLon: real,
                                      n: nat, now: int, p: Provider)
    ensures |Scanned(cache, startLat, startLon, endLat, endLon, n, now, p).risks| == n
  {
    if n > 0 {
      ScanLength(cache, startLat, startLon, endLat, endLon, n - 1, now, p);
    }
  }

  /** With the clear-weather classification every grid departure carries
      risk 0. */
  lemma {:induction false} ClearScanIsRiskFree(cache: Cache, startLat: real, startLon: real, endLat: real, endLon: real,
                                               n: nat, now: int, p: Provider)
    requires ClassifiesAllClear(p)
    ensures forall r :: r in Scanned(cache, startLat, startLon, endLat, endLon, n, now, p).risks ==> r == 0.0
  {
    if n > 0 {
      var s := Scanned(cache, startLat, startLon, endLat, endLon, n - 1, now, p);
      var w := Sampled(s.cache, startLat, startLon, endLat, endLon, SampleCount(), now, p);
      ClearSamples(s.cache, startLat, startLon, endLat, endLon, SampleCount(), now, p);
      ClearRiskIsZero(w.points);
      ClearScanIsRiskFree(cache, startLat, startLon, endLat, endLon, n - 1, now, p);
      assert Scanned(cache, startLat, startLon, endLat, endLon, n, now, p).risks == s.risks + [RiskScore(w.points)];
    }
  }

  /** The first index of a least risk: a later candidate replaces the best
      so far only when strictly lower. */
  function FirstMinIndex(risks: seq<real>): (k: nat)
    requires risks != []
    ensures k < |risks|
    decreases |risks|
  {
    if |risks| == 1 then 0
    else
      var k := FirstMinIndex(risks[..|risks| - 1]);
      if risks[|risks| - 1] < risks[k] then |risks| - 1 else k
  }

  /** That index holds a least risk, and every earlier risk is strictly
      greater. */
  lemma {:induction false} FirstMinimum(risks: seq<real>)
    requires risks != []
    ensures var k := FirstMinIndex(risks);
      && (forall j :: 0 <= j < |risks| ==> risks[k] <= risks[j])
      && (forall j :: 0 <= j < k ==> risks[j] > risks[k])
    decreases |risks|
  {
    if |risks| > 1 {
      var init := risks[..|risks| - 1];
      FirstMinimum(init);
      assert forall j :: 0 <= j < |init| ==> init[j] == risks[j];
    }
  }

  /** The departure the search settles on, given the risks it saw. */
  function OptimalDeparture(startWindow: int, risks: seq<real>): int {
    if risks == [] then startWindow else startWindow + DEPARTURE_STEP_MINUTES * FirstMinIndex(risks)
  }

  /** An empty window returns its start; otherwise the answer is a grid
      departure inside the window whose risk no grid departure beats, and
      no earlier grid departure ties it. */
  lemma OptimalDepartureInWindow(startWindow: int, endWindow: int, risks: seq<real>)
    requires |risks| == GridSize(startWindow, endWindow)
    ensures var t := OptimalDeparture(startWindow, risks);
      && (startWindow >= endWindow ==> t == startWindow)
      && (startWindow < endWindow ==>
            && startWindow <= t < endWindow
            && (t - startWindow) % DEPARTURE_STEP_MINUTES == 0
            && var k := (t - startWindow) / DEPARTURE_STEP_MINUTES;
               && (forall j :: 0 <= j < |risks| ==> risks[k] <= risks[j])
               && (forall j :: 0 <= j < k ==> risks[j] > risks[k]))
  {
    if startWindow < endWindow {
      var k := FirstMinIndex(risks);
      FirstMinimum(risks);
      assert k <= (endWindow - startWindow - 1) / DEPARTURE_STEP_MINUTES;
      assert DEPARTURE_STEP_MINUTES * k <= endWindow - startWindow - 1;
    }
  }

  /** When all risks are equal the earliest departure wins. */
  lemma {:induction false} UniformRiskPicksStart(startWindow: int, risks: seq<real>)
    requires forall j :: 0 <= j < |risks| ==> risks[j] == risks[0]
    ensures OptimalDeparture(startWindow, risks) == startWindow
  {
    if risks != [] {
      var k := FirstMinIndex(risks);
      FirstMinimum(risks);
      assert risks[0] == risks[k];
    }
  }

  // ------------------------------------------------------------ the service

  /** `Double.MAX_VALUE`, the search's initial "lowest risk". */
  const DOUBLE_MAX_VALUE: real := 1.7976931348623157e308

  /** What the search loop knows after seeing the risks `seen`: the best
      departure so far and the lowest risk so far (`Double.MAX_VALUE`
      before the first). */
  predicate SearchState(startWindow: int, seen: seq<real>, bestTime: int, lowestRisk: real) {
    && bestTime == OptimalDeparture(startWindow, seen)
    && lowestRisk == if seen == [] then DOUBLE_MAX_VALUE else seen[FirstMinIndex(seen)]
  }

  /** One round of the search: a risk strictly below the lowest so far (the
      first one always, since risks never exceed 1) moves the answer to the
      new departure. */
  lemma SearchStep(startWindow: int, seen: seq<real>, bestTime: int, lowestRisk: real, risk: real)
    requires SearchState(startWindow, seen, bestTime, lowestRisk)
    requires risk <= 1.0
    ensures risk < lowestRisk ==> SearchState(startWindow, seen + [risk], startWindow + DEPARTURE_STEP_MINUTES * |seen|, risk)
    ensures risk >= lowestRisk ==> SearchState(startWindow, seen + [risk], bestTime, lowestRisk)
  {
    assert (seen + [risk])[..|seen|] == seen;
  }

  class WeatherAwareRoutingService {
    var weatherCache: Cache

    constructor ()
      ensures weatherCache == map[]
    {
      weatherCache := map[];
    }

    method GetWeatherForecast(lat: real, lon: real, now: int, p: Provider) returns (forecast: Option<Forecast>)
      modifies this
      ensures Lookup(forecast, weatherCache) == ForecastLookup(old(weatherCache), lat, lon, now, p)
    {
      var cacheKey := p.cacheKey(lat, lon);
      var cached := CachedAt(weatherCache, cacheKey);
      if IsValidCache(cached, now) {
        return Some(cached.value.forecast);
      }
      forecast := p.fetch(lat, lon, now);
      if forecast.Some? {
        weatherCache := weatherCache[cacheKey := WeatherCache(forecast.value, now)];
      }
    }

    /** Weather at the 11 points of the straight line. The departure
        `time` is accepted but plays no part, exactly as in the service. */
    method GetWeatherAlongRoute(startLat: real, startLon: real, endLat: real, endLon: real,
                                time: int, now: int, p: Provider)
      returns (points: seq<WeatherPoint>)
      modifies this
      ensures Sampling(points, weatherCache)
           == Sampled(old(weatherCache), startLat, startLon, endLat, endLon, SampleCount(), now, p)
    {
      points := [];
      var i := 0;
      while i <= SAMPLE_STEPS
        invariant 0 <= i <= SAMPLE_STEPS + 1
        invariant Sampling(points, weatherCache) == Sampled(old(weatherCache), startLat, startLon, endLat, endLon, i, now, p)
      {
        var observed := SampleAt(startLat, startLon, endLat, endLon, i, now, p);
        points := points + observed;
        i := i + 1;
      }
    }

    /** The body of the sampling loop: the forecast at sample `i`, as a
        point when there is one. */
    method SampleAt(startLat: real, startLon: real, endLat: real, endLon: real, i: nat, now: int, p: Provider)
      returns (observed: seq<WeatherPoint>)
      modifies this
      ensures var lat := Interpolate(startLat, endLat, i, SAMPLE_STEPS);
        var lon := Interpolate(startLon, endLon, i, SAMPLE_STEPS);
        var l := ForecastLookup(old(weatherCache), lat, lon, now, p);
        observed == Observed(lat, lon, l.forecast, p) && weatherCache == l.cache
    {
      var lat := Interpolate(startLat, endLat, i, SAMPLE_STEPS);
      var lon := Interpolate(startLon, endLon, i, SAMPLE_STEPS);
      var forecast := GetWeatherForecast(lat, lon, now, p);
      observed := if forecast.Some?
        then [WeatherPoint(lat, lon, p.condition(forecast.value), p.severity(forecast.value))]
        else [];
    }

    /** The least risky departure on the 30-minute grid of
        `[startWindow, endWindow)`, the earliest among equals. */
    method SuggestOptimalDepartureTime(startLat: real, startLon: real, endLat: real, endLon: real,
                                       startWindow: int, endWindow: int, now: int, p: Provider)
      returns (bestTime: int)
      modifies this
      ensures var scan := Scanned(old(weatherCache), startLat, startLon, endLat, endLon, GridSize(startWindow, endWindow), now, p);
        && weatherCache == scan.cache
        && bestTime == OptimalDeparture(startWindow, scan.risks)
      ensures startWindow <= bestTime
      ensures bestTime == startWindow || bestTime < endWindow
      ensures (bestTime - startWindow) % DEPARTURE_STEP_MINUTES == 0
    {
      bestTime := startWindow;
      var lowestRisk := DOUBLE_MAX_VALUE;
      var current := startWindow;
      ghost var seen: seq<real> := [];
      while current < endWindow
        invariant current == startWindow + DEPARTURE_STEP_MINUTES * |seen|
        invariant seen == [] || current - DEPARTURE_STEP_MINUTES < endWindow
        invariant Scan(seen, weatherCache) == Scanned(old(weatherCache), startLat, startLon, endLat, endLon, |seen|, now, p)
        invariant SearchState(startWindow, seen, bestTime, lowestRisk)
        decreases endWindow - current
      {
        var risk := RiskAt(startLat, startLon, endLat, endLon, current, now, p);
        SearchStep(startWindow, seen, bestTime, lowestRisk, risk);
        if risk < lowestRisk {
          lowestRisk := risk;
          bestTime := current;
        }
        seen := seen + [risk];
        current := current + DEPARTURE_STEP_MINUTES;
      }
      GridSizeExact(startWindow, endWindow, |seen|);
      OptimalDepartureInWindow(startWindow, endWindow, seen);
    }

    /** The body of the search loop: the route risk for one departure. */
    method RiskAt(startLat: real, startLon: real, endLat: real, endLon: real, departure: int, now: int, p: Provider)
      returns (risk: real)
      modifies this
      ensures var w := Sampled(old(weatherCache), startLat, startLon, endLat, endLon, SampleCount(), now, p);
        risk == RiskScore(w.points) && weatherCache == w.cache
    {
      var weatherPoints := GetWeatherAlongRoute(startLat, startLon, endLat, endLon, departure, now, p);
      risk := CalculateWeatherRiskScore(weatherPoints);
    }

    /** Sample the weather, lay the straight base route and detour it. */
    method CalculateRoute(startLat: real, startLon: real, endLat: real, endLon: real,
                          departureTime: int, now: int, p: Provider)
      returns (r: WeatherAwareRoute)
      modifies this
      ensures var s := Sampled(old(weatherCache), startLat, startLon, endLat, endLon, SampleCount(), now, p);
        && weatherCache == s.cache
        && r.weatherPoints == s.points
        && r.riskScore == RiskScore(s.points)
      ensures |r.route| == BASE_ROUTE_STEPS + 1
      ensures r.route[0] == RoutePoint(startLat, startLon)
      ensures r.route[BASE_ROUTE_STEPS] == RoutePoint(endLat, endLon)
      ensures r.riskScore <= HIGH_RISK_THRESHOLD ==> forall i :: 0 <= i < |r.route| ==>
        r.route[i] == BasePoint(startLat, startLon, endLat, endLon, i)
      ensures r.riskScore > HIGH_RISK_THRESHOLD ==> forall i :: 0 < i < BASE_ROUTE_STEPS ==>
        r.route[i] == Detoured(p.geo, BasePoint(startLat, startLon, endLat, endLon, i), r.weatherPoints)
      ensures forall i :: 0 <= i < |r.route| && r.route[i] != BasePoint(startLat, startLon, endLat, endLon, i) ==>
        && 0 < i < BASE_ROUTE_STEPS && r.riskScore > HIGH_RISK_THRESHOLD
        && var w := FindNearestWeatherPoint(p.geo, BasePoint(startLat, startLon, endLat, endLon, i), r.weatherPoints);
           w.Some? && IsHighRiskWeather(w.value)
      ensures forall i :: 0 <= i < |r.route| ==>
        r.route[i] == RoutedPoint(p.geo, startLat, startLon, endLat, endLon, r.weatherPoints, i)
      ensures AdvisesPrevalent(r.advisories, r.weatherPoints)
    {
      var weatherPoints := GetWeatherAlongRoute(startLat, startLon, endLat, endLon, departureTime, now, p);
      var baseRoute := CalculateBaseRoute(startLat, startLon, endLat, endLon);
      r := AdjustRouteForWeather(p.geo, baseRoute, weatherPoints);
    }
  }
}
