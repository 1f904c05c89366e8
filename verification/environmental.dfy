/** The air-quality endpoint: it checks the method, the query and the API
    key, asks the AirNow service for the observations near the coordinates,
    and reports the PM2.5 reading, falling back to ozone. */
module Environmental {
  import opened Js

  /** The parts of the request the handler reads. */
  datatype Request = Request(httpMethod: string, lat: Option<string>, lon: Option<string>)

  /** One observation of the service's answer: `ParameterName`, `AQI` and
      `Category.Name`. */
  datatype Observation = Observation(parameterName: string, aqi: Option<real>, categoryName: Option<string>)

  /** The service's answer: a JSON array of observations, or anything else. */
  datatype AirNowBody = NotAnArray | Observations(items: seq<Observation>)

  /** The JSON body of a reading; null fields are None. */
  datatype Reading = Reading(aqi: Option<real>, category: Option<string>, pm25: Option<real>, ozone: Option<real>)

  datatype Response =
    | Preflight            // 200, empty body
    | MethodNotAllowed     // 405
    | BadRequest           // 400
    | NotConfigured        // 200, aqi null and a message
    | NoData               // 200, aqi null and a message
    | ServerError          // 500
    | Measured(reading: Reading)

  function Status(r: Response): (code: int)
    ensures code == 200 <==> !(r.MethodNotAllowed? || r.BadRequest? || r.ServerError?)
  {
    match r
    case MethodNotAllowed => 405
    case BadRequest => 400
    case ServerError => 500
    case _ => 200
  }

  /** The `error` or `message` field of the answer. */
  function MessageText(r: Response): (text: Option<string>)
    ensures text.None? <==> r.Preflight? || r.Measured?
  {
    match r
    case MethodNotAllowed => Some("Method not allowed")
    case BadRequest => Some("lat and lon are required")
    case NotConfigured => Some("AirNow API key not configured")
    case NoData => Some("No data available for location")
    case ServerError => Some("Internal server error")
    case _ => None
  }

  /** The index `find` stops at: the first observation of the parameter. */
  function FindIndex(items: seq<Observation>, name: string): (r: Option<nat>)
    ensures r.Some? ==> r.value < |items| && items[r.value].parameterName == name
    ensures r.Some? ==> forall j :: 0 <= j < r.value ==> items[j].parameterName != name
    ensures r.None? ==> forall j :: 0 <= j < |items| ==> items[j].parameterName != name
  {
    if items == [] then None
    else if items[0].parameterName == name then Some(0)
    else
      var rest := FindIndex(items[1..], name);
      if rest.None? then None else Some(rest.value + 1)
  }

  /** `items.find(d => d.ParameterName === name)` */
  function Find(items: seq<Observation>, name: string): (r: Option<Observation>)
    ensures r.None? <==> forall j :: 0 <= j < |items| ==> items[j].parameterName != name
    ensures r.Some? ==> r.value.parameterName == name && r.value in items
    ensures r.Some? ==>
              exists i :: 0 <= i < |items| && items[i] == r.value
                          && forall j :: 0 <= j < i ==> items[j].parameterName != name
  {
    var i := FindIndex(items, name);
    if i.None? then None else Some(items[i.value])
  }

  /** `o?.AQI || null` */
  function AqiOf(o: Option<Observation>): (r: Option<real>)
    ensures r.None? || Truthy(r)
    ensures r.Some? <==> o.Some? && Truthy(o.value.aqi)
    ensures r.Some? ==> r == o.value.aqi
  {
    if o.Some? then FirstTruthy(o.value.aqi, None) else None
  }

  /** `o?.Category?.Name` */
  function CategoryOf(o: Option<Observation>): (r: Option<string>)
    ensures o.Some? ==> r == o.value.categoryName
    ensures o.None? ==> r.None?
  {
    if o.Some? then o.value.categoryName else None
  }

  /** The reading built from a non-empty array: PM2.5 first, ozone second. */
  function Summarize(items: seq<Observation>): (r: Reading)
    ensures r.pm25 == AqiOf(Find(items, "PM2.5")) && r.ozone == AqiOf(Find(items, "O3"))
    ensures r.aqi.None? <==> r.pm25.None? && r.ozone.None?
    ensures r.pm25.Some? ==> r.aqi == r.pm25
    ensures r.pm25.None? ==> r.aqi == r.ozone
    ensures r.category.None? || StrTruthy(r.category)
    ensures StrTruthy(CategoryOf(Find(items, "PM2.5"))) ==> r.category == CategoryOf(Find(items, "PM2.5"))
    ensures !StrTruthy(CategoryOf(Find(items, "PM2.5"))) && StrTruthy(CategoryOf(Find(items, "O3")))
            ==> r.category == CategoryOf(Find(items, "O3"))
    ensures r.category.None?
        <==> !StrTruthy(CategoryOf(Find(items, "PM2.5"))) && !StrTruthy(CategoryOf(Find(items, "O3")))
  {
    var pm25 := Find(items, "PM2.5");
    var ozone := Find(items, "O3");
    Reading(
      aqi := FirstTruthy(AqiOf(pm25), AqiOf(ozone)),
      category := FirstTruthyStr(CategoryOf(pm25), CategoryOf(ozone)),
      pm25 := AqiOf(pm25),
      ozone := AqiOf(ozone))
  }

  /** The handler. `apiKey` is the configured key, None when unset;
      `lookup` is the service's answer, None when the request to it fails or
      its answer is not OK. */
  function Handle(req: Request, apiKey: Option<string>, lookup: Option<AirNowBody>): (resp: Response)
    ensures req.httpMethod == "OPTIONS" ==> resp == Preflight
    ensures req.httpMethod != "OPTIONS" && req.httpMethod != "GET" ==> resp == MethodNotAllowed
    ensures req.httpMethod == "GET" ==> (resp == BadRequest <==> !StrTruthy(req.lat) || !StrTruthy(req.lon))
    ensures resp == NotConfigured
        <==> req.httpMethod == "GET" && StrTruthy(req.lat) && StrTruthy(req.lon) && !StrTruthy(apiKey)
    ensures resp.ServerError? <==> req.httpMethod == "GET" && StrTruthy(req.lat) && StrTruthy(req.lon)
                                   && StrTruthy(apiKey) && lookup.None?
    ensures resp.Measured? <==> req.httpMethod == "GET" && StrTruthy(req.lat) && StrTruthy(req.lon)
                                && StrTruthy(apiKey) && lookup.Some? && lookup.value.Observations?
                                && lookup.value.items != []
    ensures resp == NoData
        <==> req.httpMethod == "GET" && StrTruthy(req.lat) && StrTruthy(req.lon) && StrTruthy(apiKey)
             && lookup.Some? && (lookup.value.NotAnArray? || lookup.value.items == [])
    ensures resp.Measured? ==> resp.reading == Summarize(lookup.value.items)
  {
    if req.httpMethod == "OPTIONS" then Preflight
    else if req.httpMethod != "GET" then MethodNotAllowed
    else if !StrTruthy(req.lat) || !StrTruthy(req.lon) then BadRequest
    else if !StrTruthy(apiKey) then NotConfigured
    else if lookup.None? then ServerError
    else match lookup.value
      case Observations(items) => if |items| > 0 then Measured(Summarize(items)) else NoData
      case NotAnArray => NoData
  }

  /** The key is only consulted after the query checks, and without a key
      the service is never asked: the answer does not depend on `lookup`. */
  lemma MissingKeyNeedsNoLookup(req: Request, apiKey: Option<string>, a: Option<AirNowBody>, b: Option<AirNowBody>)
    requires !StrTruthy(apiKey)
    ensures Handle(req, apiKey, a) == Handle(req, apiKey, b)
    ensures Handle(req, apiKey, a) in {Preflight, MethodNotAllowed, BadRequest, NotConfigured}
  {
  }

  /** PM2.5 wins: when the first PM2.5 observation has an AQI, that is the
      reported AQI whatever the ozone observations say. */
  lemma Pm25Preferred(items: seq<Observation>, i: nat)
    requires i < |items| && items[i].parameterName == "PM2.5" && Truthy(items[i].aqi)
    requires forall j :: 0 <= j < i ==> items[j].parameterName != "PM2.5"
    ensures Summarize(items).aqi == items[i].aqi
  {
  }

  /** An array with observations of neither parameter yields a reading of
      nulls rather than the no-data message. */
  lemma NeitherParameterGivesNulls(items: seq<Observation>)
    requires items != []
    requires forall j :: 0 <= j < |items| ==> items[j].parameterName != "PM2.5" && items[j].parameterName != "O3"
    ensures Handle(Request("GET", Some("1"), Some("2")), Some("key"), Some(Observations(items)))
         == Measured(Reading(None, None, None, None))
  {
  }
}
