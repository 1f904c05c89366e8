/** The reverse-geocoding endpoint: it checks the method and the query, asks
    an outside service for the place at the coordinates, and formats the
    answer as city, state or country, and a display string. */
module ReverseGeocode {
  import opened Js

  /** The parts of the request the handler reads; a query parameter that is
      absent is None. */
  datatype Request = Request(httpMethod: string, lat: Option<string>, lon: Option<string>, lng: Option<string>)

  /** The fields of the geocoding service's answer the handler reads. */
  datatype GeoData = GeoData(
    city: Option<string>,
    locality: Option<string>,
    principalSubdivision: Option<string>,
    countryName: Option<string>)

  /** The JSON body of a successful answer. */
  datatype Location = Location(city: string, country: string, state: Option<string>, formatted: string)

  datatype Response =
    | Preflight            // 200, empty body
    | MethodNotAllowed     // 405
    | BadRequest           // 400
    | ServerError          // 500
    | Located(location: Location)

  function Status(r: Response): (code: int)
    ensures r.Preflight? || r.Located? <==> code == 200
  {
    match r
    case Preflight => 200
    case MethodNotAllowed => 405
    case BadRequest => 400
    case ServerError => 500
    case Located(_) => 200
  }

  /** The `error` field of an error answer. */
  function ErrorText(r: Response): (text: Option<string>)
    ensures text.Some? <==> r.MethodNotAllowed? || r.BadRequest? || r.ServerError?
  {
    match r
    case MethodNotAllowed => Some("Method not allowed")
    case BadRequest => Some("lat and lng/lon are required")
    case ServerError => Some("Internal server error")
    case _ => None
  }

  /** `lon || lng`: `lon` is preferred, `lng` is the fallback. */
  function Longitude(req: Request): (l: Option<string>)
    ensures StrTruthy(l) <==> StrTruthy(req.lon) || StrTruthy(req.lng)
    ensures StrTruthy(req.lon) ==> l == req.lon
    ensures !StrTruthy(req.lon) ==> l == req.lng
  {
    if StrTruthy(req.lon) then req.lon else req.lng
  }

  /** Both coordinates are present and non-empty. */
  predicate HasCoordinates(req: Request) {
    StrTruthy(req.lat) && StrTruthy(Longitude(req))
  }

  /** The answer built from the service's data: the city falls back to the
      locality and then to "Unknown", the country to "Unknown", an empty
      state becomes null, and the display string is the city followed by
      the state when there is one and by the country otherwise. */
  function FormatLocation(data: GeoData): (loc: Location)
    ensures loc.city != "" && loc.country != ""
    ensures loc.state.None? || loc.state.value != ""
    ensures loc.state.Some? <==> StrTruthy(data.principalSubdivision)
    ensures loc.state.Some? ==> loc.state == data.principalSubdivision
    ensures StrTruthy(data.city) ==> loc.city == data.city.value
    ensures !StrTruthy(data.city) && StrTruthy(data.locality) ==> loc.city == data.locality.value
    ensures !StrTruthy(data.city) && !StrTruthy(data.locality) ==> loc.city == "Unknown"
    ensures StrTruthy(data.countryName) ==> loc.country == data.countryName.value
    ensures !StrTruthy(data.countryName) ==> loc.country == "Unknown"
    ensures loc.formatted == loc.city + ", " + (if loc.state.Some? then loc.state.value else loc.country)
  {
    var city := StrOr(FirstTruthyStr(data.city, data.locality), "Unknown");
    var state := FirstTruthyStr(data.principalSubdivision, None);
    var country := StrOr(data.countryName, "Unknown");
    var formatted := if StrTruthy(state) then city + ", " + state.value else city + ", " + country;
    Location(city := city, country := country, state := state, formatted := formatted)
  }

  /** The handler. `lookup` is the service's answer, None when the request
      to it fails or its answer is not OK. */
  function Handle(req: Request, lookup: Option<GeoData>): (resp: Response)
    ensures req.httpMethod == "OPTIONS" ==> resp == Preflight
    ensures req.httpMethod != "OPTIONS" && req.httpMethod != "GET" ==> resp == MethodNotAllowed
    ensures req.httpMethod == "GET" ==> (resp == BadRequest <==> !HasCoordinates(req))
    ensures resp.ServerError? <==> req.httpMethod == "GET" && HasCoordinates(req) && lookup.None?
    ensures resp.Located? <==> req.httpMethod == "GET" && HasCoordinates(req) && lookup.Some?
    ensures resp.Located? ==> resp.location == FormatLocation(lookup.value)
  {
    if req.httpMethod == "OPTIONS" then Preflight
    else if req.httpMethod != "GET" then MethodNotAllowed
    else if !HasCoordinates(req) then BadRequest
    else if lookup.None? then ServerError
    else Located(FormatLocation(lookup.value))
  }

  /** The method and the query are checked before the service is asked: an
      answer other than a location or a server error does not depend on
      the service's answer. */
  lemma ChecksPrecedeLookup(req: Request, a: Option<GeoData>, b: Option<GeoData>)
    requires !Handle(req, a).Located? && !Handle(req, a).ServerError?
    ensures Handle(req, b) == Handle(req, a)
  {
  }

  /** `lng` is only a fallback: it is ignored whenever `lon` is given. */
  lemma LonTakesPrecedence(req: Request, lng: Option<string>, lookup: Option<GeoData>)
    requires StrTruthy(req.lon)
    ensures Handle(req.(lng := lng), lookup) == Handle(req, lookup)
  {
  }

  /** The display string always begins with the city and a comma, and ends
      with the state when there is one and with the country otherwise. */
  lemma FormattedStartsWithCity(data: GeoData)
    ensures var loc := FormatLocation(data);
      && loc.formatted[..|loc.city| + 2] == loc.city + ", "
      && |loc.formatted| > |loc.city| + 2
  {
    var loc := FormatLocation(data);
    var rest := if loc.state.Some? then loc.state.value else loc.country;
    assert loc.formatted == (loc.city + ", ") + rest;
  }
}
