/**
 * The safety command centre: the safety status follows the number of
 * nearby tourists each time the location changes, a status card shows a
 * fixed text and percentage per status, the header shows a location text,
 * and the companion panel lists the companions open to connect.
 *
 * The tourist count comes from a simulation and is an input.
 */
module SafetyDashboard {
  import opened Wrappers
  import opened Text

  datatype SafetyStatus = Safe | Warning | Danger

  /** More than 100 tourists is safe, more than 50 a warning, anything else danger. */
  function StatusFor(tourists: int): (s: SafetyStatus)
    ensures s == Safe <==> tourists > 100
    ensures s == Warning <==> 50 < tourists <= 100
    ensures s == Danger <==> tourists <= 50
  {
    if tourists > 100 then Safe
    else if tourists > 50 then Warning
    else Danger
  }

  /** A rank where a safer status is higher. */
  function Safety(s: SafetyStatus): nat {
    match s
    case Danger => 0
    case Warning => 1
    case Safe => 2
  }

  /** More tourists never give a less safe status. */
  lemma StatusMonotone(fewer: int, more: int)
    requires fewer <= more
    ensures Safety(StatusFor(fewer)) <= Safety(StatusFor(more))
  {
  }

  datatype StatusConfig = StatusConfig(text: string, percent: nat, color: string)

  /** `getStatusConfig`: the card's text, percentage and colour per status. */
  function ConfigFor(s: SafetyStatus): (c: StatusConfig)
    ensures s == Safe ==> c.text == "All Clear" && c.percent == 98
    ensures s == Warning ==> c.text == "Caution Advised" && c.percent == 72
    ensures s == Danger ==> c.text == "High Alert" && c.percent == 31
  {
    match s
    case Safe => StatusConfig("All Clear", 98, "bg-green-500")
    case Warning => StatusConfig("Caution Advised", 72, "bg-yellow-500")
    case Danger => StatusConfig("High Alert", 31, "bg-red-500")
  }

  /** The shown percentage rises with the status. */
  lemma PercentFollowsSafety(a: SafetyStatus, b: SafetyStatus)
    ensures Safety(a) < Safety(b) <==> ConfigFor(a).percent < ConfigFor(b).percent
  {
  }

  /** The location the hook reports; missing fields are `None`. */
  datatype Place = Place(address: Option<string>, city: Option<string>)

  /**
   * `getCurrentLocationText`: loading comes first, then an error; then the
   * address, the city, or a fixed text, each when truthy.
   */
  function LocationText(loading: bool, error: Option<string>, location: Option<Place>): (t: string)
    ensures loading ==> t == "Detecting location..."
    ensures !loading && error.Some? && error.value != "" ==> t == "Location unavailable"
    ensures !loading && (error.None? || error.value == "") && location.None? ==> t == "Unknown location"
    ensures !loading && (error.None? || error.value == "") && location.Some? ==>
              t == OrDefault(location.value.address, OrDefault(location.value.city, "Unknown location"))
  {
    if loading then "Detecting location..."
    else if error.Some? && error.value != "" then "Location unavailable"
    else if location.None? then "Unknown location"
    else OrDefault(location.value.address, OrDefault(location.value.city, "Unknown location"))
  }

  /** An empty address falls through to the city. */
  lemma EmptyAddressShowsCity(city: string)
    requires city != ""
    ensures LocationText(false, None, Some(Place(Some(""), Some(city)))) == city
  {
  }

  datatype Companion = Companion(id: string, name: string, distance: string, open: bool)

  const NEARBY: seq<Companion> := [
    Companion("1", "Alice", "200m", true),
    Companion("2", "Ravi", "350m", false),
    Companion("3", "Sara", "500m", true)
  ]

  /** `companions.filter(c => c.open)`. */
  function OpenCompanions(cs: seq<Companion>): (r: seq<Companion>)
    ensures |r| <= |cs|
  {
    if cs == [] then [] else (if cs[0].open then [cs[0]] else []) + OpenCompanions(cs[1..])
  }

  /** The filter works element by element: filtering a concatenation concatenates the filtered parts, in order. */
  lemma {:induction false} OpenCompanionsAppend(a: seq<Companion>, b: seq<Companion>)
    ensures OpenCompanions(a + b) == OpenCompanions(a) + OpenCompanions(b)
  {
    if a == [] {
      assert a + b == b;
    } else {
      assert (a + b)[0] == a[0];
      assert (a + b)[1..] == a[1..] + b;
      OpenCompanionsAppend(a[1..], b);
    }
  }

  /**
   * The panel lists exactly the open companions, each open companion right
   * after the open ones before it (so in list order, duplicates kept), and
   * it is empty exactly when no companion is open.
   */
  lemma {:induction false} OpenCompanionsExact(cs: seq<Companion>)
    ensures forall c :: c in OpenCompanions(cs) <==> c in cs && c.open
    ensures forall i :: 0 <= i < |cs| && cs[i].open ==>
              |OpenCompanions(cs[..i])| < |OpenCompanions(cs)| && OpenCompanions(cs)[|OpenCompanions(cs[..i])|] == cs[i]
    ensures OpenCompanions(cs) == [] <==> !exists i :: 0 <= i < |cs| && cs[i].open
  {
    forall i | 0 <= i < |cs| && cs[i].open
      ensures |OpenCompanions(cs[..i])| < |OpenCompanions(cs)| && OpenCompanions(cs)[|OpenCompanions(cs[..i])|] == cs[i]
    {
      assert cs == cs[..i] + cs[i..];
      OpenCompanionsAppend(cs[..i], cs[i..]);
      assert cs[i..][0] == cs[i];
    }
    if cs != [] {
      OpenCompanionsExact(cs[1..]);
      assert forall c :: c in cs <==> c == cs[0] || c in cs[1..];
      if exists i :: 0 <= i < |cs| && cs[i].open {
        var i :| 0 <= i < |cs| && cs[i].open;
        if i > 0 {
          assert cs[1..][i - 1].open;
        }
      }
    }
  }

  /** The open companions keep the order of the list: of the companions found, Alice and Sara show, in that order. */
  lemma NearbyOpenCompanions()
    ensures OpenCompanions(NEARBY) == [NEARBY[0], NEARBY[2]]
  {
    assert NEARBY[1..][1..][1..] == [];
  }

  class Dashboard {
    var safetyStatus: SafetyStatus
    var nearbyTourists: int
    var showCompanion: bool
    var companions: seq<Companion>

    constructor()
      ensures safetyStatus == Safe && nearbyTourists == 0 && !showCompanion && companions == []
    {
      safetyStatus := Safe;
      nearbyTourists := 0;
      showCompanion := false;
      companions := [];
    }

    /** The location effect: without a location nothing changes; otherwise the count and its status are stored. */
    method LocationChanged(location: Option<Place>, tourists: int)
      modifies this`nearbyTourists, this`safetyStatus
      ensures location.None? ==> nearbyTourists == old(nearbyTourists) && safetyStatus == old(safetyStatus)
      ensures location.Some? ==> nearbyTourists == tourists && safetyStatus == StatusFor(tourists)
    {
      if location.None? {
        return;
      }
      nearbyTourists := tourists;
      if tourists > 100 {
        safetyStatus := Safe;
      } else if tourists > 50 {
        safetyStatus := Warning;
      } else {
        safetyStatus := Danger;
      }
    }

    /** `handleFindCompanions`: the panel opens with the fixed list of nearby companions. */
    method FindCompanions()
      modifies this`showCompanion, this`companions
      ensures showCompanion && companions == NEARBY
    {
      showCompanion := true;
      companions := NEARBY;
    }
  }
}
