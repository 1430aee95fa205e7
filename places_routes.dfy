/**
 * The places router: three 24-hour caches held by one service object, the
 * coordinate-to-state resolver, the famous-places lookup for a state, and
 * the `/place-geocode` and `/location-info` handlers.
 *
 * Every upstream reply is an input. `now` is the clock reading when a
 * handler consults its cache and `arrived` the reading when the reply has
 * come back and the cache is written. The coordinate cache key (the two
 * coordinates rendered with five decimals) is an input as well.
 *
 * Each handler's effect is first given as a pure step over the cache it
 * uses (`ResolveState`, `FamousPlaces`, `PlaceGeocode`); the methods of
 * `PlacesService` perform it on the service's fields, running the
 * enrichment through the throttled pool.
 */
module PlacesRoutes {
  import opened Wrappers
  import opened Text
  import opened TtlCache
  import opened Places
  import AsyncPool

  /** The sentinel for a state that cannot be resolved. */
  const UNKNOWN: string := "Unknown"

  /** At most this many detail requests are in flight. */
  const POOL_LIMIT: nat := 3

  /** The reverse-geocoding reply: a thrown request, or a body whose `address.state` may be missing (`""`). */
  datatype NominatimReply = NominatimThrew | NominatimBody(state: string)

  /** The radius search of the state path: a thrown request, a body that is not an array, or a list. */
  datatype RadiusReply = RadiusThrew | RadiusNotArray | RadiusList(places: seq<Candidate>)

  /**
   * The radius search of the name path: a thrown request, a falsy body
   * (read as `[]`), a truthy body that is not an array (so `.filter`
   * throws), or a list.
   */
  datatype NearbyReply = NearbyThrew | NearbyFalsy | NearbyNotArray | NearbyList(places: seq<Candidate>)

  /** The body `/place-geocode` returns and caches. */
  datatype SearchResult = SearchResult(name: string, lat: real, lon: real, attractions: seq<Candidate>)

  /** What `/place-geocode` answers: an error status, or a result with status 200. */
  datatype GeocodeReply = GeocodeStatus(code: int) | GeocodeFound(result: SearchResult)

  /** What `/location-info` answers. */
  datatype LocationReply = LocationBadRequest | LocationFound(state: string, places: seq<PlaceSummary>)

  // ---------------------------------------------------------------
  // getStateFromCoordinates
  // ---------------------------------------------------------------

  datatype Resolved = Resolved(state: string, cache: map<string, Entry<string>>)

  /** Every cached state is a non-empty name. */
  predicate StatesNamed(cache: map<string, Entry<string>>) {
    forall k :: k in cache ==> cache[k].value != ""
  }

  /**
   * One call of the resolver: a live entry is served as is; otherwise a
   * thrown request answers `"Unknown"` and writes nothing, and a reply
   * answers its state, or `"Unknown"` when the state is missing, and caches
   * that answer.
   */
  function ResolveState(cache: map<string, Entry<string>>, key: string, now: nat, reply: NominatimReply, arrived: nat): (r: Resolved)
    ensures Lookup(cache, key, now).Some? ==> r == Resolved(Lookup(cache, key, now).value, cache)
    ensures Lookup(cache, key, now).None? && reply.NominatimThrew? ==> r == Resolved(UNKNOWN, cache)
    ensures Lookup(cache, key, now).None? && reply.NominatimBody? ==>
              r.state == (if reply.state != "" then reply.state else UNKNOWN) && r.cache == Store(cache, key, r.state, arrived)
    ensures StatesNamed(cache) ==> r.state != "" && StatesNamed(r.cache)
  {
    match Lookup(cache, key, now)
    case Some(state) => Resolved(state, cache)
    case None =>
      match reply
      case NominatimThrew => Resolved(UNKNOWN, cache)
      case NominatimBody(s) =>
        var state := if s != "" then s else UNKNOWN;
        Resolved(state, Store(cache, key, state, arrived))
  }

  /** A reply without a state is cached as `"Unknown"`, unlike a thrown request. */
  lemma UnknownIsCached(cache: map<string, Entry<string>>, key: string, now: nat, arrived: nat)
    requires Lookup(cache, key, now).None?
    ensures ResolveState(cache, key, now, NominatimBody(""), arrived).cache[key] == Entry(UNKNOWN, arrived)
    ensures ResolveState(cache, key, now, NominatimThrew, arrived).cache == cache
  {
  }

  /**
   * Once a reply has been cached, every later call within the lifetime
   * answers the same state and leaves the cache alone, whatever upstream
   * would say.
   */
  lemma ResolvedStateIsReused(cache: map<string, Entry<string>>, key: string, now: nat, state: string, arrived: nat,
                              later: nat, reply: NominatimReply, arrived': nat)
    requires Lookup(cache, key, now).None?
    requires arrived <= later < arrived + CACHE_TTL
    ensures var first := ResolveState(cache, key, now, NominatimBody(state), arrived);
            ResolveState(first.cache, key, later, reply, arrived') == first
  {
    var first := ResolveState(cache, key, now, NominatimBody(state), arrived);
    ServedWhileYoung(cache, key, first.state, arrived, later);
  }

  // ---------------------------------------------------------------
  // getFamousPlacesForState
  // ---------------------------------------------------------------

  datatype Served = Served(places: seq<PlaceSummary>, cache: map<string, Entry<seq<PlaceSummary>>>)

  /** A list of places as the lookup produces it: at most ten, each with a name and an `xid`. */
  predicate WellFormedPlaces(ps: seq<PlaceSummary>) {
    |ps| <= TOP && forall p :: p in ps ==> p.name != "" && p.xid != ""
  }

  predicate PlacesWellFormed(cache: map<string, Entry<seq<PlaceSummary>>>) {
    forall k :: k in cache ==> WellFormedPlaces(cache[k].value)
  }

  /**
   * The places for a state from the upstream replies, or `None` when the
   * lookup ends with `[]` that is not cached: the geoname request threw or
   * gave no truthy `lat` and `lon`, or the radius search threw or was not
   * an array.
   */
  function LookUpPlaces(geo: GeoReply, radius: RadiusReply, details: string -> DetailReply): (r: Option<seq<PlaceSummary>>)
    ensures r.Some? <==> geo.GeoBody? && Truthy(geo.lat) && Truthy(geo.lon) && radius.RadiusList?
    ensures r.Some? ==> WellFormedPlaces(r.value)
  {
    if geo.GeoThrew? || !Truthy(geo.lat) || !Truthy(geo.lon) then None
    else match radius
      case RadiusList(cs) =>
        RankSpec(cs);
        Some(EnrichAll(Rank(cs), details))
      case _ => None
  }

  /** One call of `getFamousPlacesForState(state)`. */
  function FamousPlaces(cache: map<string, Entry<seq<PlaceSummary>>>, state: string, now: nat,
                        geo: GeoReply, radius: RadiusReply, details: string -> DetailReply, arrived: nat): (r: Served)
    ensures Lookup(cache, state, now).Some? ==> r == Served(Lookup(cache, state, now).value, cache)
    ensures Lookup(cache, state, now).None? ==>
              r.places == LookUpPlaces(geo, radius, details).GetOr([]) &&
              r.cache == if LookUpPlaces(geo, radius, details).Some? then Store(cache, state, r.places, arrived) else cache
    ensures PlacesWellFormed(cache) ==> WellFormedPlaces(r.places) && PlacesWellFormed(r.cache)
  {
    match Lookup(cache, state, now)
    case Some(places) => Served(places, cache)
    case None =>
      match LookUpPlaces(geo, radius, details)
      case None => Served([], cache)
      case Some(places) => Served(places, Store(cache, state, places, arrived))
  }

  /**
   * The empty answers of the failure paths are returned but never cached:
   * a missing geoname coordinate, a radius reply that is not an array, a
   * thrown request.
   */
  lemma FailuresAreNotCached(cache: map<string, Entry<seq<PlaceSummary>>>, state: string, now: nat,
                             geo: GeoReply, radius: RadiusReply, details: string -> DetailReply, arrived: nat)
    requires Lookup(cache, state, now).None?
    requires geo.GeoThrew? || !Truthy(geo.lat) || !Truthy(geo.lon) || !radius.RadiusList?
    ensures FamousPlaces(cache, state, now, geo, radius, details, arrived) == Served([], cache)
  {
  }

  /**
   * `asyncPool(3, topPlaces, worker)` followed by `.filter(Boolean)`: the
   * enriched places of the ranked candidates, failures dropped.
   */
  method EnrichRanked(top: seq<Candidate>, details: string -> DetailReply) returns (places: seq<PlaceSummary>)
    ensures places == EnrichAll(top, details)
  {
    var results: seq<Option<PlaceSummary>>;
    ghost var peak: nat;
    results, peak := AsyncPool.Run(POOL_LIMIT, top, Worker(details));
    assert results == seq(|top|, i requires 0 <= i < |top| => Enrich(top[i], details(top[i].xid)));
    places := Present(results);
  }

  /**
   * On the successful path the answer is the enrichment of the ranked
   * candidates with failures dropped: one place per ranked candidate whose
   * enrichment worked, in ranking order, and nothing in place of the rest.
   */
  lemma PlacesDropFailures(cs: seq<Candidate>, details: string -> DetailReply)
    ensures var top := Rank(cs);
            var worked := seq(|top|, i requires 0 <= i < |top| => Enrich(top[i], details(top[i].xid)));
            EnrichAll(top, details) == Present(worked) &&
            |EnrichAll(top, details)| == |top| - CountAbsent(worked) &&
            forall i :: 0 <= i < |top| && worked[i].Some? ==>
              |Present(worked[..i])| < |EnrichAll(top, details)| &&
              EnrichAll(top, details)[|Present(worked[..i])|] == worked[i].value
  {
    var top := Rank(cs);
    var worked := seq(|top|, i requires 0 <= i < |top| => Enrich(top[i], details(top[i].xid)));
    PresentCount(worked);
    forall i | 0 <= i < |top| && worked[i].Some?
      ensures |Present(worked[..i])| < |Present(worked)| && Present(worked)[|Present(worked[..i])|] == worked[i].value
    {
      PresentInOrder(worked, i);
    }
  }

  // ---------------------------------------------------------------
  // /place-geocode
  // ---------------------------------------------------------------

  /** Every cached search is stored under its lower-cased name and holds at most ten attractions. */
  predicate SearchesWellFormed(cache: map<string, Entry<SearchResult>>) {
    forall k :: k in cache ==> Lower(cache[k].value.name) == k && |cache[k].value.attractions| <= TOP
  }

  /**
   * The answer to a search that missed the cache: 500 when the geoname
   * request threw, 404 without truthy `lat` and `lon`, 500 when the radius
   * request threw or gave a truthy non-array, and otherwise the raw name,
   * the coordinates and the ranked attractions (none for a falsy body).
   */
  function Locate(name: string, geo: GeoReply, nearby: NearbyReply): (r: GeocodeReply)
    ensures r.GeocodeStatus? ==> r.code in {404, 500}
    ensures r.GeocodeStatus? && r.code == 404 <==> geo.GeoBody? && (!Truthy(geo.lat) || !Truthy(geo.lon))
    ensures r.GeocodeFound? <==> geo.GeoBody? && Truthy(geo.lat) && Truthy(geo.lon) && (nearby.NearbyFalsy? || nearby.NearbyList?)
    ensures r.GeocodeFound? ==> r.result.name == name && Some(r.result.lat) == geo.lat && Some(r.result.lon) == geo.lon
    ensures r.GeocodeFound? ==> r.result.attractions == if nearby.NearbyList? then Rank(nearby.places) else []
  {
    match geo
    case GeoThrew => GeocodeStatus(500)
    case GeoBody(lat, lon) =>
      if !Truthy(lat) || !Truthy(lon) then GeocodeStatus(404)
      else match nearby
        case NearbyThrew => GeocodeStatus(500)
        case NearbyNotArray => GeocodeStatus(500)
        case NearbyFalsy => GeocodeFound(SearchResult(name, lat.value, lon.value, []))
        case NearbyList(cs) => GeocodeFound(SearchResult(name, lat.value, lon.value, Rank(cs)))
  }

  datatype Searched = Searched(reply: GeocodeReply, cache: map<string, Entry<SearchResult>>)

  /**
   * One request to `/place-geocode?name=...`: 400 for a missing name;
   * otherwise a live entry under the lower-cased name is answered as is,
   * and a miss answers `Locate` and caches it only when it is a result.
   */
  function PlaceGeocode(cache: map<string, Entry<SearchResult>>, name: string, now: nat,
                        geo: GeoReply, nearby: NearbyReply, arrived: nat): (r: Searched)
    ensures name == "" ==> r == Searched(GeocodeStatus(400), cache)
    ensures name != "" && Lookup(cache, Lower(name), now).Some? ==>
              r == Searched(GeocodeFound(Lookup(cache, Lower(name), now).value), cache)
    ensures name != "" && Lookup(cache, Lower(name), now).None? ==>
              r.reply == Locate(name, geo, nearby) &&
              r.cache == if r.reply.GeocodeFound? then Store(cache, Lower(name), r.reply.result, arrived) else cache
    ensures SearchesWellFormed(cache) ==> SearchesWellFormed(r.cache)
    ensures SearchesWellFormed(cache) && r.reply.GeocodeFound? ==> Lower(r.reply.result.name) == Lower(name)
  {
    if name == "" then Searched(GeocodeStatus(400), cache)
    else
      var key := Lower(name);
      match Lookup(cache, key, now)
      case Some(result) => Searched(GeocodeFound(result), cache)
      case None =>
        var reply := Locate(name, geo, nearby);
        if reply.GeocodeFound? then
          RankSpec(if nearby.NearbyList? then nearby.places else []);
          Searched(reply, Store(cache, key, reply.result, arrived))
        else Searched(reply, cache)
  }

  /**
   * The key ignores letter case: a search found under one spelling is
   * served, with the name as first written, to a later search whose name
   * differs only in case, without asking upstream.
   */
  lemma SearchIgnoresCase(cache: map<string, Entry<SearchResult>>, name: string, now: nat, geo: GeoReply, nearby: NearbyReply,
                          arrived: nat, other: string, later: nat, geo': GeoReply, nearby': NearbyReply, arrived': nat)
    requires name != "" && other != "" && Lower(other) == Lower(name)
    requires Lookup(cache, Lower(name), now).None?
    requires arrived <= later < arrived + CACHE_TTL
    ensures var first := PlaceGeocode(cache, name, now, geo, nearby, arrived);
            first.reply.GeocodeFound? ==>
              PlaceGeocode(first.cache, other, later, geo', nearby', arrived') == Searched(first.reply, first.cache) &&
              first.reply.result.name == name
  {
    var first := PlaceGeocode(cache, name, now, geo, nearby, arrived);
    if first.reply.GeocodeFound? {
      ServedWhileYoung(cache, Lower(name), first.reply.result, arrived, later);
    }
  }

  /** The key is not trimmed: a name with a leading space is looked up under a different key. */
  lemma SearchKeyIsNotTrimmed(name: string)
    requires name != [] && !IsSpace(name[0])
    ensures Lower([' '] + name) != Lower(name)
    ensures Trim([' '] + name) == Trim(name)
  {
    assert Lower([' '] + name)[0] == ' ';
    assert TrimStart([' '] + name) == TrimStart(name);
  }

  /** A place that is not found is answered 404 and not cached, so the next request asks upstream again. */
  lemma NotFoundIsNotCached(cache: map<string, Entry<SearchResult>>, name: string, now: nat, lat: Option<real>, lon: Option<real>,
                            nearby: NearbyReply, arrived: nat)
    requires name != "" && Lookup(cache, Lower(name), now).None?
    requires !Truthy(lat) || !Truthy(lon)
    ensures PlaceGeocode(cache, name, now, GeoBody(lat, lon), nearby, arrived) == Searched(GeocodeStatus(404), cache)
  {
  }

  /** The name path and the state path rank a radius reply by the same rule. */
  lemma BothPathsRankAlike(cache: map<string, Entry<SearchResult>>, name: string, now: nat, lat: real, lon: real,
                           cs: seq<Candidate>, arrived: nat, details: string -> DetailReply)
    requires name != "" && lat != 0.0 && lon != 0.0 && Lookup(cache, Lower(name), now).None?
    ensures PlaceGeocode(cache, name, now, GeoBody(Some(lat), Some(lon)), NearbyList(cs), arrived).reply
              == GeocodeFound(SearchResult(name, lat, lon, Rank(cs)))
    ensures LookUpPlaces(GeoBody(Some(lat), Some(lon)), RadiusList(cs), details) == Some(EnrichAll(Rank(cs), details))
  {
  }

  // ---------------------------------------------------------------
  // The service object holding the three caches
  // ---------------------------------------------------------------

  class PlacesService {
    var nominatimCache: map<string, Entry<string>>
    var placesCache: map<string, Entry<seq<PlaceSummary>>>
    var placeSearchCache: map<string, Entry<SearchResult>>

    /** What every handler keeps true of the caches. */
    ghost predicate Valid()
      reads this
    {
      StatesNamed(nominatimCache) && PlacesWellFormed(placesCache) && SearchesWellFormed(placeSearchCache)
    }

    constructor()
      ensures Valid()
      ensures nominatimCache == map[] && placesCache == map[] && placeSearchCache == map[]
    {
      nominatimCache := map[];
      placesCache := map[];
      placeSearchCache := map[];
    }

    /** `getStateFromCoordinates(lat, lon)`; `key` is the rendered coordinate pair. */
    method GetStateFromCoordinates(key: string, now: nat, reply: NominatimReply, arrived: nat) returns (state: string)
      requires Valid()
      modifies this`nominatimCache
      ensures Valid() && state != ""
      ensures Resolved(state, nominatimCache) == ResolveState(old(nominatimCache), key, now, reply, arrived)
    {
      var cached := Lookup(nominatimCache, key, now);
      if cached.Some? {
        return cached.value;
      }
      match reply {
        case NominatimThrew =>
          state := UNKNOWN;
        case NominatimBody(s) =>
          state := if s != "" then s else UNKNOWN;
          nominatimCache := Store(nominatimCache, key, state, arrived);
      }
    }

    /** `getFamousPlacesForState(state)`, with the detail requests run three at a time. */
    method GetFamousPlacesForState(state: string, now: nat, geo: GeoReply, radius: RadiusReply,
                                   details: string -> DetailReply, arrived: nat) returns (places: seq<PlaceSummary>)
      requires Valid()
      modifies this`placesCache
      ensures Valid() && WellFormedPlaces(places)
      ensures Served(places, placesCache) == FamousPlaces(old(placesCache), state, now, geo, radius, details, arrived)
    {
      var cached := Lookup(placesCache, state, now);
      if cached.Some? {
        return cached.value;
      }
      if geo.GeoThrew? || !Truthy(geo.lat) || !Truthy(geo.lon) || !radius.RadiusList? {
        return [];
      }
      places := EnrichRanked(Rank(radius.places), details);
      assert LookUpPlaces(geo, radius, details) == Some(places);
      placesCache := Store(placesCache, state, places, arrived);
    }

    /** The `/place-geocode` handler; `name` is the query parameter, `""` when missing. */
    method PlaceGeocodeHandler(name: string, now: nat, geo: GeoReply, nearby: NearbyReply, arrived: nat)
        returns (reply: GeocodeReply)
      requires Valid()
      modifies this`placeSearchCache
      ensures Valid()
      ensures Searched(reply, placeSearchCache) == PlaceGeocode(old(placeSearchCache), name, now, geo, nearby, arrived)
    {
      if name == "" {
        return GeocodeStatus(400);
      }
      var key := Lower(name);
      var cached := Lookup(placeSearchCache, key, now);
      if cached.Some? {
        return GeocodeFound(cached.value);
      }
      reply := Locate(name, geo, nearby);
      if reply.GeocodeFound? {
        placeSearchCache := Store(placeSearchCache, key, reply.result, arrived);
      }
    }

    /**
     * The `/location-info` handler: 400 unless both query parameters are
     * present; otherwise the resolved state and its places. The state
     * lookup reads the clock at `now` and writes at `resolved`; the places
     * lookup reads at `resolved` and writes at `arrived`.
     */
    method LocationInfo(lat: string, lon: string, key: string, now: nat, nominatim: NominatimReply, resolved: nat,
                        geo: GeoReply, radius: RadiusReply, details: string -> DetailReply, arrived: nat)
        returns (reply: LocationReply)
      requires Valid()
      modifies this`nominatimCache, this`placesCache
      ensures Valid()
      ensures lat == "" || lon == "" ==> reply == LocationBadRequest && unchanged(this)
      ensures lat != "" && lon != "" ==>
                var r := ResolveState(old(nominatimCache), key, now, nominatim, resolved);
                var s := FamousPlaces(old(placesCache), r.state, resolved, geo, radius, details, arrived);
                reply == LocationFound(r.state, s.places) && nominatimCache == r.cache && placesCache == s.cache
    {
      if lat == "" || lon == "" {
        return LocationBadRequest;
      }
      var state := GetStateFromCoordinates(key, now, nominatim, resolved);
      var places := GetFamousPlacesForState(state, resolved, geo, radius, details, arrived);
      reply := LocationFound(state, places);
    }
  }

  /** The state `/location-info` answers is never empty, and its places are at most ten named ones. */
  lemma LocationInfoWellFormed(ncache: map<string, Entry<string>>, pcache: map<string, Entry<seq<PlaceSummary>>>,
                               key: string, now: nat, nominatim: NominatimReply, resolved: nat,
                               geo: GeoReply, radius: RadiusReply, details: string -> DetailReply, arrived: nat)
    requires StatesNamed(ncache) && PlacesWellFormed(pcache)
    ensures var r := ResolveState(ncache, key, now, nominatim, resolved);
            r.state != "" && WellFormedPlaces(FamousPlaces(pcache, r.state, resolved, geo, radius, details, arrived).places)
  {
  }
}
