/**
 * The safety-analytics endpoint: it resolves the state for a coordinate
 * pair, takes the famous places of that state as hotspots, and fills a
 * dashboard with simulated figures.
 *
 * `Math.random()` is an input: `rand(i)` is the i-th value drawn, each in
 * [0, 1), in the order the handler draws them.
 */
module SafetyAnalytics {
  import opened Wrappers
  import opened Text
  import opened TtlCache
  import opened Places
  import opened PlacesRoutes

  const CRIMES: seq<string> := ["theft", "assault", "medical", "lost_person"]
  const WEATHER: seq<string> := ["rain", "sunny", "hot", "storm"]
  const TRENDS: seq<string> := ["up", "down", "stable"]
  const STATUSES: seq<string> := ["resolved", "investigating"]
  const SEVERITIES: seq<string> := ["low", "medium", "high"]

  /** How many hotspots and recent incidents the dashboard shows. */
  const HOTSPOTS: nat := 5
  const RECENT: nat := 5

  /** A source of `Math.random()` values. */
  ghost predicate Uniform(rand: nat -> real) {
    forall i :: 0.0 <= rand(i) < 1.0
  }

  /** `Math.floor(u * (max - min + 1)) + min` for a draw `u`. */
  function RandomBetween(min: int, max: int, u: real): (r: int)
    requires 0.0 <= u < 1.0
    ensures min <= max ==> min <= r <= max
  {
    var n := max - min + 1;
    if n >= 1 then
      ScaledFloorBelow(u, n);
      (u * n as real).Floor + min
    else (u * n as real).Floor + min
  }

  lemma ScaledFloorBelow(u: real, n: int)
    requires 0.0 <= u < 1.0 && n >= 1
    ensures 0 <= (u * n as real).Floor < n
  {
    assert u * n as real < n as real by {
      assert (1.0 - u) * n as real > 0.0;
    }
  }

  function Max(a: int, b: int): int {
    if a >= b then a else b
  }

  datatype Hotspot = Hotspot(location: string, incidents: int, trend: string)
  datatype Incident = Incident(kind: string, time: string, status: string, severity: string)
  datatype Insight = Insight(title: string, description: string, kind: string)

  datatype Analytics = Analytics(
    safetyScore: int, safetyTrend: string, totalReports: int, weeklyReports: int, resolvedIncidents: int,
    avgResponseTime: real, responseTrend: string,
    hotspots: seq<Hotspot>, recentIncidents: seq<Incident>, aiInsights: seq<Insight>)

  datatype AnalyticsReply = AnalyticsBadRequest | AnalyticsOk(analytics: Analytics)

  /** The hotspots: the first five places, each named by its place, with simulated figures. */
  function Hotspots(places: seq<PlaceSummary>, rand: nat -> real): (hs: seq<Hotspot>)
    requires Uniform(rand)
    ensures |hs| == if |places| <= HOTSPOTS then |places| else HOTSPOTS
    ensures forall i :: 0 <= i < |hs| ==> hs[i].location == places[i].name
    ensures forall i :: 0 <= i < |hs| ==> 1 <= hs[i].incidents <= 20 && hs[i].trend in TRENDS
  {
    var top := Take(places, HOTSPOTS);
    seq(|top|, i requires 0 <= i < |top| =>
      Hotspot(top[i].name, RandomBetween(1, 20, rand(5 + 2 * i)), TRENDS[RandomBetween(0, 2, rand(6 + 2 * i))]))
  }

  /** The recent incidents, drawing four values each from `rand(base)` on. */
  function RecentIncidents(rand: nat -> real, base: nat): (rs: seq<Incident>)
    requires Uniform(rand)
    ensures |rs| == RECENT
    ensures forall i :: 0 <= i < |rs| ==> rs[i].kind in CRIMES && rs[i].status in STATUSES && rs[i].severity in SEVERITIES
  {
    seq(RECENT, i requires 0 <= i < RECENT =>
      Incident(
        CRIMES[RandomBetween(0, |CRIMES| - 1, rand(base + 4 * i))],
        NatToString(RandomBetween(1, 12, rand(base + 4 * i + 1))) + " hours ago",
        STATUSES[RandomBetween(0, 1, rand(base + 4 * i + 2))],
        SEVERITIES[RandomBetween(0, 2, rand(base + 4 * i + 3))]))
  }

  /** The first insight's subject: the first hotspot's location when it is truthy, else the state. */
  function InsightSubject(hs: seq<Hotspot>, state: string): (s: string)
    ensures |hs| > 0 && hs[0].location != "" ==> s == hs[0].location
    ensures |hs| == 0 || hs[0].location == "" ==> s == state
  {
    if |hs| > 0 && hs[0].location != "" then hs[0].location else state
  }

  /** The dashboard for a state and its places. */
  /** The three insights: an improvement at `subject`, the fixed crowd pattern, and a weather correlation. */
  function Insights(subject: string, percent: nat, weather: string): seq<Insight> {
    [ Insight("Safety Improvement Detected",
              subject + " incidents decreased by " + NatToString(percent) + "% after enhanced patrols.",
              "success"),
      Insight("Tourist Flow Pattern", "Peak safety concerns occur between 2-4 PM. Monitor high crowd areas.", "info"),
      Insight("Weather Alert Correlation", "Incidents increase during " + weather + " days. Take precautions.", "warning") ]
  }

  function Analyze(state: string, places: seq<PlaceSummary>, rand: nat -> real): (a: Analytics)
    requires Uniform(rand)
    ensures 100 <= a.totalReports <= 300
    ensures 80 <= a.resolvedIncidents <= a.totalReports
    ensures a.safetyScore == Max(50, 100 - (a.totalReports - a.resolvedIncidents))
    ensures 50 <= a.safetyScore <= 100
    ensures 5 <= a.weeklyReports <= 20
    ensures 3.0 <= a.avgResponseTime < 11.0
    ensures a.hotspots == Hotspots(places, rand)
    ensures a.recentIncidents == RecentIncidents(rand, 5 + 2 * |a.hotspots|)
    ensures |a.aiInsights| == 3
  {
    var total := RandomBetween(100, 300, rand(0));
    var resolved := RandomBetween(80, total, rand(1));
    var avg := RandomBetween(3, 10, rand(2)) as real + rand(3);
    var weekly := RandomBetween(5, 20, rand(4));
    var hs := Hotspots(places, rand);
    var base := 5 + 2 * |hs|;
    var percent := RandomBetween(10, 50, rand(base + 4 * RECENT));
    var weather := WEATHER[RandomBetween(0, 3, rand(base + 4 * RECENT + 1))];
    Analytics(
      Max(50, 100 - (total - resolved)), "+2%", total, weekly, resolved, avg, "+10%",
      hs, RecentIncidents(rand, base), Insights(InsightSubject(hs, state), percent, weather))
  }

  /** The hotspots name the first places in order, at most five of them. */
  lemma HotspotsNameFirstPlaces(state: string, places: seq<PlaceSummary>, rand: nat -> real)
    requires Uniform(rand)
    ensures var hs := Analyze(state, places, rand).hotspots;
            |hs| <= HOTSPOTS && seq(|hs|, i requires 0 <= i < |hs| => hs[i].location) == seq(|hs|, i requires 0 <= i < |hs| => places[i].name)
  {
  }

  /**
   * The first insight opens with the first hotspot's location, or with the
   * state when there is no hotspot (or its name is empty).
   */
  lemma FirstInsightSubject(state: string, places: seq<PlaceSummary>, rand: nat -> real)
    requires Uniform(rand)
    ensures var a := Analyze(state, places, rand);
            StartsWith(a.aiInsights[0].description, if |places| > 0 && places[0].name != "" then places[0].name else state)
  {
    var a := Analyze(state, places, rand);
    var subject := InsightSubject(a.hotspots, state);
    var rest := " incidents decreased by " + NatToString(RandomBetween(10, 50, rand(5 + 2 * |a.hotspots| + 4 * RECENT))) + "% after enhanced patrols.";
    assert a.aiInsights[0].description == subject + rest;
    assert (subject + rest)[..|subject|] == subject;
  }

  /**
   * `GET /?lat=..&lon=..`: 400 unless both parameters are present;
   * otherwise the state and its places come from the places router's
   * cached lookups and the dashboard is built from them.
   */
  method SafetyAnalyticsHandler(svc: PlacesService, lat: string, lon: string, key: string,
                                now: nat, nominatim: NominatimReply, resolved: nat,
                                geo: GeoReply, radius: RadiusReply, details: string -> DetailReply, arrived: nat,
                                rand: nat -> real) returns (reply: AnalyticsReply)
    requires svc.Valid() && Uniform(rand)
    modifies svc`nominatimCache, svc`placesCache
    ensures svc.Valid()
    ensures lat == "" || lon == "" ==> reply == AnalyticsBadRequest && unchanged(svc)
    ensures lat != "" && lon != "" ==>
              var r := ResolveState(old(svc.nominatimCache), key, now, nominatim, resolved);
              var s := FamousPlaces(old(svc.placesCache), r.state, resolved, geo, radius, details, arrived);
              reply == AnalyticsOk(Analyze(r.state, s.places, rand)) &&
              svc.nominatimCache == r.cache && svc.placesCache == s.cache
  {
    if lat == "" || lon == "" {
      return AnalyticsBadRequest;
    }
    var state := svc.GetStateFromCoordinates(key, now, nominatim, resolved);
    var places := svc.GetFamousPlacesForState(state, resolved, geo, radius, details, arrived);
    reply := AnalyticsOk(Analyze(state, places, rand));
  }
}
