/**
 * The place-info endpoint: it looks a name up with the autosuggest
 * search, takes the first feature's `xid`, fetches that place's details
 * and maps them to one result record.
 *
 * The replies are inputs: the search reply, and the detail reply for each
 * `xid` as a function, so that the model shows which `xid` is asked for.
 */
module PlaceInfo {
  import opened Wrappers
  import opened Places

  /** `req.query.name`: absent, a string, or another shape (an array of values). */
  datatype Query = Absent | Given(s: string) | NotString

  /** One feature of the search reply; `None` stands for a `null` element. */
  datatype Feature = Feature(xid: string, name: string)

  /** The search reply: a thrown request or body parse, or a body whose `features` may be missing. */
  datatype SearchReply = SearchThrew | SearchBody(features: Option<seq<Option<Feature>>>)

  /** The detail record; `""` for missing strings, `None` for a missing `images` list. */
  datatype Details = Details(
    xid: string, name: string, point: Option<Point>, wikiText: string, descr: string, preview: string,
    images: Option<seq<string>>)

  /** The detail reply: thrown, answered with a status other than 2xx, or answered. */
  datatype DetailsReply = DetailsThrew | DetailsNotOk | DetailsOk(details: Details)

  datatype PlaceInfoResult = PlaceInfoResult(
    xid: string, name: string, lat: Option<real>, lon: Option<real>, description: string,
    img: Option<string>, bestTime: Option<string>, photos: seq<string>)

  datatype Reply = Status(code: int) | Found(result: PlaceInfoResult)

  /** The record built from the details and the feature they were asked for. */
  function ToResult(d: Details, f: Feature): (r: PlaceInfoResult)
    ensures r.xid == d.xid
    ensures r.name == (if d.name != "" then d.name else f.name)
    ensures r.lat == LatOf(d.point) && r.lon == LonOf(d.point)
    ensures r.description == (if d.wikiText != "" then d.wikiText else if d.descr != "" then d.descr else "")
    ensures r.img.Some? <==> d.preview != ""
    ensures r.img.Some? ==> r.img.value == d.preview
    ensures r.bestTime == None
    ensures d.images.Some? ==> r.photos == d.images.value
    ensures d.images.None? ==> r.photos == []
  {
    PlaceInfoResult(
      d.xid,
      if d.name != "" then d.name else f.name,
      LatOf(d.point), LonOf(d.point),
      if d.wikiText != "" then d.wikiText else if d.descr != "" then d.descr else "",
      if d.preview != "" then Some(d.preview) else None,
      None,
      if d.images.Some? then d.images.value else [])
  }

  /**
   * `GET /?name=...`: 400 for a missing or non-string name, checked before
   * the API key (500 when unset); 500 when a request throws; 404 when
   * `features` is missing, empty or starts with `null`; 502 when the detail
   * reply is not ok; otherwise the mapped record.
   */
  function PlaceInfoHandler(name: Query, apiKey: string, search: SearchReply, details: string -> DetailsReply): (r: Reply)
    ensures r == Status(400) <==> name.Absent? || name.NotString? || name.s == ""
    ensures name.Given? && name.s != "" && apiKey == "" ==> r == Status(500)
    ensures r == Status(500) <==>
              name.Given? && name.s != "" &&
              (apiKey == "" || search.SearchThrew? ||
               (search.features.Some? && |search.features.value| > 0 && search.features.value[0].Some? &&
                details(search.features.value[0].value.xid).DetailsThrew?))
    ensures r.Status? ==> r.code in {400, 404, 500, 502}
    ensures r.Status? && r.code == 404 <==>
              name.Given? && name.s != "" && apiKey != "" && search.SearchBody? &&
              (search.features.None? || |search.features.value| == 0 || search.features.value[0].None?)
    ensures r.Status? && r.code == 502 <==>
              name.Given? && name.s != "" && apiKey != "" && search.SearchBody? &&
              search.features.Some? && |search.features.value| > 0 && search.features.value[0].Some? &&
              details(search.features.value[0].value.xid).DetailsNotOk?
    ensures r.Found? <==>
              name.Given? && name.s != "" && apiKey != "" && search.SearchBody? &&
              search.features.Some? && |search.features.value| > 0 && search.features.value[0].Some? &&
              details(search.features.value[0].value.xid).DetailsOk?
    ensures r.Found? ==>
              r.result == ToResult(details(search.features.value[0].value.xid).details, search.features.value[0].value)
  {
    if name.Absent? || name.NotString? || name.s == "" then Status(400)
    else if apiKey == "" then Status(500)
    else match search
      case SearchThrew => Status(500)
      case SearchBody(features) =>
        if features.None? || |features.value| == 0 then Status(404)
        else match features.value[0]
          case None => Status(404)
          case Some(place) =>
            match details(place.xid)
            case DetailsThrew => Status(500)
            case DetailsNotOk => Status(502)
            case DetailsOk(d) => Found(ToResult(d, place))
  }

  /** Only the first feature's `xid` is asked for: detail replies for any other `xid` do not matter. */
  lemma OnlyFirstFeatureMatters(name: Query, apiKey: string, f: Feature, rest: seq<Option<Feature>>,
                                details: string -> DetailsReply, details': string -> DetailsReply)
    requires details(f.xid) == details'(f.xid)
    ensures PlaceInfoHandler(name, apiKey, SearchBody(Some([Some(f)] + rest)), details)
         == PlaceInfoHandler(name, apiKey, SearchBody(Some([Some(f)] + rest)), details')
  {
  }

  /** The name check comes first: a missing name is 400 even when the API key is also missing. */
  lemma NameCheckedBeforeKey(search: SearchReply, details: string -> DetailsReply)
    ensures PlaceInfoHandler(Absent, "", search, details) == Status(400)
    ensures PlaceInfoHandler(Given("Taj Mahal"), "", search, details) == Status(500)
  {
  }
}
