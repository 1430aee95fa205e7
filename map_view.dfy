/**
 * The safety map's search and routing state: typing a query fetches up to
 * six suggestions, picking one centres the map on it and clears the old
 * route, and a route reply in [longitude, latitude] order is turned into
 * [latitude, longitude] points with its distance in kilometres. Zones and
 * incidents are coloured by level.
 *
 * The geocoder and routing replies are inputs, with coordinates already
 * parsed to numbers.
 */
module MapView {
  import opened Wrappers
  import Places

  /** A coordinate pair in whatever order the producer uses. */
  datatype Pair = Pair(first: real, second: real)

  /** `[c[1], c[0]]`. */
  function Swap(c: Pair): Pair {
    Pair(c.second, c.first)
  }

  /** `coordinates.map(c => [c[1], c[0]])`. */
  function SwapAll(cs: seq<Pair>): (r: seq<Pair>)
    ensures |r| == |cs|
    ensures forall i :: 0 <= i < |cs| ==> r[i].first == cs[i].second && r[i].second == cs[i].first
  {
    seq(|cs|, i requires 0 <= i < |cs| => Swap(cs[i]))
  }

  /** Swapping twice gives the route back. */
  lemma SwapTwice(cs: seq<Pair>)
    ensures SwapAll(SwapAll(cs)) == cs
  {
  }

  /** Swapping distributes over joined routes, so a route can be converted piece by piece. */
  lemma SwapAllAppend(a: seq<Pair>, b: seq<Pair>)
    ensures SwapAll(a + b) == SwapAll(a) + SwapAll(b)
  {
  }

  /** `getZoneColor`: green, amber and red for the three zone levels, grey otherwise. */
  function ZoneColor(level: string): (c: string)
    ensures level == "safe" <==> c == "#10b981"
    ensures level == "moderate" <==> c == "#f59e0b"
    ensures level == "warning" <==> c == "#ef4444"
    ensures level !in {"safe", "moderate", "warning"} <==> c == "#6b7280"
  {
    match level
    case "safe" => "#10b981"
    case "moderate" => "#f59e0b"
    case "warning" => "#ef4444"
    case _ => "#6b7280"
  }

  /** `getSeverityColor`: the same palette for incident severities. */
  function SeverityColor(severity: string): (c: string)
    ensures severity == "low" <==> c == "#10b981"
    ensures severity == "medium" <==> c == "#f59e0b"
    ensures severity == "high" <==> c == "#ef4444"
    ensures severity !in {"low", "medium", "high"} <==> c == "#6b7280"
  {
    match severity
    case "low" => "#10b981"
    case "medium" => "#f59e0b"
    case "high" => "#ef4444"
    case _ => "#6b7280"
  }

  /** The two palettes agree level by level. */
  lemma PalettesAgree()
    ensures ZoneColor("safe") == SeverityColor("low")
    ensures ZoneColor("moderate") == SeverityColor("medium")
    ensures ZoneColor("warning") == SeverityColor("high")
  {
  }

  /** One geocoder suggestion. */
  datatype Suggestion = Suggestion(lat: real, lon: real, displayName: string)

  datatype SuggestReply = SuggestThrew | SuggestList(list: seq<Suggestion>)

  datatype SearchResult = SearchResult(lat: real, lng: real, displayName: string)

  /**
   * The routing reply: thrown, or a body whose first feature's coordinates
   * may be missing, and whose summary distance in metres may be missing too.
   */
  datatype RouteReply = RouteThrew | RouteBody(coordinates: Option<seq<Pair>>, metres: Option<real>)

  const MAX_SUGGESTIONS: nat := 6

  /** The initial centre, in [latitude, longitude] order. */
  const DEFAULT_CENTER: Pair := Pair(40.7128, -74.0060)

  class SafetyMap {
    var searchQuery: string
    var suggestions: seq<Suggestion>
    var searchResult: Option<SearchResult>
    var mapCenter: Pair
    var routeCoords: seq<Pair>
    var distance: Option<real>
    var sidebarOpen: bool

    constructor()
      ensures searchQuery == "" && suggestions == [] && searchResult == None && mapCenter == DEFAULT_CENTER
      ensures routeCoords == [] && distance == None && !sidebarOpen
    {
      searchQuery := "";
      suggestions := [];
      searchResult := None;
      mapCenter := DEFAULT_CENTER;
      routeCoords := [];
      distance := None;
      sidebarOpen := false;
    }

    /**
     * `fetchSuggestions(query)`: the query is stored; an empty query clears
     * the suggestions; otherwise the first six of the reply replace them,
     * and a failed request keeps them.
     */
    method FetchSuggestions(query: string, reply: SuggestReply)
      modifies this`searchQuery, this`suggestions
      ensures searchQuery == query
      ensures query == "" ==> suggestions == []
      ensures query != "" && reply.SuggestThrew? ==> suggestions == old(suggestions)
      ensures query != "" && reply.SuggestList? ==>
                |suggestions| == (if |reply.list| <= MAX_SUGGESTIONS then |reply.list| else MAX_SUGGESTIONS) &&
                suggestions == reply.list[..|suggestions|]
    {
      searchQuery := query;
      if query == "" {
        suggestions := [];
        return;
      }
      if reply.SuggestList? {
        suggestions := Places.Take(reply.list, MAX_SUGGESTIONS);
      }
    }

    /** `handleSelectSuggestion`: the pick becomes the search result and the centre; suggestions, route and distance are cleared and the sidebar closes. */
    method SelectSuggestion(s: Suggestion)
      modifies this`searchResult, this`mapCenter, this`suggestions, this`routeCoords, this`distance, this`sidebarOpen
      ensures searchResult == Some(SearchResult(s.lat, s.lon, s.displayName))
      ensures mapCenter == Pair(s.lat, s.lon)
      ensures suggestions == [] && routeCoords == [] && distance == None && !sidebarOpen
    {
      searchResult := Some(SearchResult(s.lat, s.lon, s.displayName));
      mapCenter := Pair(s.lat, s.lon);
      suggestions := [];
      routeCoords := [];
      distance := None;
      sidebarOpen := false;
    }

    /**
     * `fetchRoute`: only a reply with coordinates changes the route, to the
     * swapped points, and then the distance, to kilometres; a missing summary
     * throws after the route is set, so the distance is kept.
     */
    method FetchRoute(reply: RouteReply)
      modifies this`routeCoords, this`distance
      ensures reply.RouteBody? && reply.coordinates.Some? ==> routeCoords == SwapAll(reply.coordinates.value)
      ensures reply.RouteBody? && reply.coordinates.Some? && reply.metres.Some? ==>
                distance == Some(reply.metres.value / 1000.0)
      ensures !(reply.RouteBody? && reply.coordinates.Some?) ==> routeCoords == old(routeCoords)
      ensures !(reply.RouteBody? && reply.coordinates.Some? && reply.metres.Some?) ==> distance == old(distance)
    {
      if reply.RouteBody? && reply.coordinates.Some? {
        routeCoords := SwapAll(reply.coordinates.value);
        if reply.metres.Some? {
          distance := Some(reply.metres.value / 1000.0);
        }
      }
    }
  }
}
