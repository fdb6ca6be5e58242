/**
 * The automation tools of `mcp_server_fastmcp.py` ("streamlit-controller"): each
 * tool is one or two HTTP requests to the app-state service, issued through
 * `_api_request`. A request reaches the `StateServer` of `AppStateApi` directly;
 * the list of known facility classes, which the tools fetch from `GET /fclasses`,
 * is an input, because the service defines no handler for that path.
 */
module ControllerTools {
  import opened Wrappers
  import opened AppStateApi
  import opened StringOrder

  /** The request methods `_api_request` knows how to issue. */
  datatype Verb = Get | Post | Delete

  /** The JSON body `_api_request` is given; only POST sends it. */
  datatype Payload =
    | NoData
    | StateData(body: AppStateBody)
    | FiltersData(fclasses: seq<string>)
    | MapData(update: MapUpdate)

  /** Why `_api_request` raised: an unknown method name, or a 4xx/5xx status from `raise_for_status`. */
  datatype ClientError =
    | UnsupportedMethod(verbName: string)
    | HttpStatusError(statusCode: int, detail: string)

  /** The body of `GET /fclasses`; `fclasses` is None when the key is missing. */
  datatype FclassesReply = FclassesReply(fclasses: Option<seq<string>>)

  /** The error dictionary `set_facility_filters` returns instead of writing. */
  datatype Rejection = Rejection(message: string, invalid: seq<string>, allowed: seq<string>)

  /** What `set_facility_filters` returns when it does not raise. */
  datatype FilterResult = Rejected(rejection: Rejection) | Forwarded(reply: Response)

  const NotFound: HttpError := HttpError(404, "Not Found")
  const MethodNotAllowed: HttpError := HttpError(405, "Method Not Allowed")
  const Unprocessable: HttpError := HttpError(422, "Unprocessable Entity")
  const UnrecognizedMessage: string := "Some fclasses are not recognized"

  /** The method names `_api_request` accepts; any other one raises `ValueError`. */
  function ParseVerb(verbName: string): (v: Option<Verb>)
    ensures v == Some(Get) <==> verbName == "GET"
    ensures v == Some(Post) <==> verbName == "POST"
    ensures v == Some(Delete) <==> verbName == "DELETE"
  {
    if verbName == "GET" then Some(Get)
    else if verbName == "POST" then Some(Post)
    else if verbName == "DELETE" then Some(Delete)
    else None
  }

  /**
   * The handler of the service that a request reaches, as the route decorators
   * declare them: unknown paths are 404, a known path with another method 405,
   * and a POST whose body does not fit the handler's parameter 422.
   */
  function Route(verb: Verb, endpoint: string, data: Payload): (r: Result<Call, HttpError>)
    ensures r == Ok(GetStateCall) <==> verb == Get && endpoint == "/state"
    ensures r == Ok(ResetCall) <==> verb == Delete && endpoint == "/state"
    ensures r == Ok(HealthCall) <==> verb == Get && endpoint == "/health"
    ensures r.Ok? && r.value.SetStateCall? <==> verb == Post && endpoint == "/state" && data.StateData?
    ensures r.Ok? && r.value.SetStateCall? ==> r.value.state == ParseAppState(data.body)
    ensures r.Ok? && r.value.SetFiltersCall? <==> verb == Post && endpoint == "/filters" && data.FiltersData?
    ensures r.Ok? && r.value.SetFiltersCall? ==> r.value.fclasses == data.fclasses
    ensures r.Ok? && r.value.UpdateMapCall? <==> verb == Post && endpoint == "/map" && data.MapData?
    ensures r.Ok? && r.value.UpdateMapCall? ==> r.value.update == data.update
    ensures r == Err(NotFound) <==> endpoint !in ["/state", "/filters", "/map", "/health"]
    ensures r == Err(MethodNotAllowed) <==>
      || (endpoint in ["/filters", "/map"] && verb != Post)
      || (endpoint == "/health" && verb != Get)
    ensures r == Err(Unprocessable) <==>
      || (endpoint == "/state" && verb == Post && !data.StateData?)
      || (endpoint == "/filters" && verb == Post && !data.FiltersData?)
      || (endpoint == "/map" && verb == Post && !data.MapData?)
    ensures r.Err? ==> r.error in {NotFound, MethodNotAllowed, Unprocessable}
  {
    if endpoint == "/state" then
      match verb
      case Get => Ok(GetStateCall)
      case Post => if data.StateData? then Ok(SetStateCall(ParseAppState(data.body))) else Err(Unprocessable)
      case Delete => Ok(ResetCall)
    else if endpoint == "/filters" then
      if verb != Post then Err(MethodNotAllowed)
      else if data.FiltersData? then Ok(SetFiltersCall(data.fclasses)) else Err(Unprocessable)
    else if endpoint == "/map" then
      if verb != Post then Err(MethodNotAllowed)
      else if data.MapData? then Ok(UpdateMapCall(data.update)) else Err(Unprocessable)
    else if endpoint == "/health" then
      if verb == Get then Ok(HealthCall) else Err(MethodNotAllowed)
    else Err(NotFound)
  }

  /** `resp.raise_for_status()` followed by `resp.json()`. */
  function RaiseForStatus(response: Result<Response, HttpError>): (r: Result<Response, ClientError>)
    ensures response.Ok? <==> r.Ok?
    ensures r.Ok? ==> r.value == response.value
    ensures r.Err? ==> r.error == HttpStatusError(response.error.statusCode, response.error.detail)
  {
    match response
    case Ok(v) => Ok(v)
    case Err(e) => Err(HttpStatusError(e.statusCode, e.detail))
  }

  /**
   * `_api_request`: reject an unsupported method before anything is sent;
   * otherwise send the request and return the decoded answer, or raise on an
   * error status.
   */
  method ApiRequest(server: StateServer, verbName: string, endpoint: string, data: Payload)
    returns (r: Result<Response, ClientError>)
    modifies server`stored
    ensures ParseVerb(verbName).None? ==>
      r == Err(UnsupportedMethod(verbName)) && server.stored == old(server.stored)
    ensures ParseVerb(verbName).Some? && Route(ParseVerb(verbName).value, endpoint, data).Err? ==>
      var e := Route(ParseVerb(verbName).value, endpoint, data).error;
      r == Err(HttpStatusError(e.statusCode, e.detail)) && server.stored == old(server.stored)
    ensures ParseVerb(verbName).Some? && Route(ParseVerb(verbName).value, endpoint, data).Ok? ==>
      var o := Serve(old(server.stored), server.available, Route(ParseVerb(verbName).value, endpoint, data).value);
      server.stored == o.stored && r == RaiseForStatus(o.response)
  {
    var verb := ParseVerb(verbName);
    if verb.None? { return Err(UnsupportedMethod(verbName)); }
    var call := Route(verb.value, endpoint, data);
    if call.Err? { return Err(HttpStatusError(call.error.statusCode, call.error.detail)); }
    var response := server.Dispatch(call.value);
    r := RaiseForStatus(response);
  }

  /** `data.get("fclasses", [])`. */
  function KnownClasses(reply: FclassesReply): (classes: seq<string>)
    ensures reply.fclasses.Some? ==> classes == reply.fclasses.value
    ensures reply.fclasses.None? ==> classes == []
  {
    reply.fclasses.GetOr([])
  }

  /** `set(known.get("fclasses", []))`. */
  function AllowedSet(reply: FclassesReply): (allowed: set<string>)
    ensures forall x :: x in allowed <==> x in KnownClasses(reply)
  {
    set x | x in KnownClasses(reply)
  }

  /** `list_facility_classes`: the fetched class list, or an empty one when the key is missing. */
  function ListFacilityClasses(known: Result<FclassesReply, ClientError>): (r: Result<seq<string>, ClientError>)
    ensures known.Err? ==> r == Err(known.error)
    ensures known.Ok? && known.value.fclasses.Some? ==> r == Ok(known.value.fclasses.value)
    ensures known.Ok? && known.value.fclasses.None? ==> r == Ok([])
  {
    match known
    case Err(e) => Err(e)
    case Ok(reply) => Ok(KnownClasses(reply))
  }

  /** `[x for x in fclasses if x not in allowed]`. */
  function Invalid(fclasses: seq<string>, allowed: set<string>): (r: seq<string>)
    ensures forall x :: x in r <==> x in fclasses && x !in allowed
    ensures r == [] <==> forall i :: 0 <= i < |fclasses| ==> fclasses[i] in allowed
    ensures |r| <= |fclasses|
    decreases |fclasses|
  {
    if fclasses == [] then []
    else (if fclasses[0] in allowed then [] else [fclasses[0]]) + Invalid(fclasses[1..], allowed)
  }

  /** The filter keeps request order: it distributes over concatenation. */
  lemma {:induction false} InvalidConcat(a: seq<string>, b: seq<string>, allowed: set<string>)
    ensures Invalid(a + b, allowed) == Invalid(a, allowed) + Invalid(b, allowed)
    decreases |a|
  {
    if a != [] {
      assert (a + b)[1..] == a[1..] + b;
      InvalidConcat(a[1..], b, allowed);
    } else {
      assert a + b == b;
    }
  }

  /** The filter keeps repeats: every unknown class occurs as often as it was requested. */
  lemma {:induction false} InvalidCounts(fclasses: seq<string>, allowed: set<string>, x: string)
    ensures multiset(Invalid(fclasses, allowed))[x] == if x in allowed then 0 else multiset(fclasses)[x]
    decreases |fclasses|
  {
    if fclasses != [] {
      InvalidCounts(fclasses[1..], allowed, x);
      assert fclasses == [fclasses[0]] + fclasses[1..];
      assert multiset(fclasses) == multiset([fclasses[0]]) + multiset(fclasses[1..]);
    }
  }

  /**
   * The check `set_facility_filters` makes before writing: None when every
   * requested class is known (an empty request included); otherwise the
   * rejection, carrying the unknown requests and the known classes sorted.
   */
  function ValidateFilters(fclasses: seq<string>, reply: FclassesReply): (r: Option<Rejection>)
    ensures r.None? <==> forall i :: 0 <= i < |fclasses| ==> fclasses[i] in KnownClasses(reply)
    ensures r.Some? ==> r.value.message == UnrecognizedMessage
    ensures r.Some? ==> r.value.invalid == Invalid(fclasses, AllowedSet(reply)) && r.value.invalid != []
    ensures r.Some? ==> StrictlyAscending(r.value.allowed)
    ensures r.Some? ==> forall y :: y in r.value.allowed <==> y in KnownClasses(reply)
  {
    var allowed := AllowedSet(reply);
    var invalid := Invalid(fclasses, allowed);
    if invalid != [] then Some(Rejection(UnrecognizedMessage, invalid, SortedDistinct(KnownClasses(reply))))
    else None
  }

  /** `get_app_state`. */
  method GetAppState(server: StateServer) returns (r: Result<Response, ClientError>)
    modifies server`stored
    ensures server.stored == old(server.stored)
    ensures server.available ==> r == Ok(StateDoc(CurrentState(server.stored)))
    ensures !server.available ==> r == Err(HttpStatusError(500, "Redis connection error"))
  {
    r := ApiRequest(server, "GET", "/state", NoData);
  }

  /**
   * `set_facility_filters`: with the fetched class list `known`, reject unknown
   * classes without writing; otherwise forward exactly the requested list to
   * `POST /filters`.
   */
  method SetFacilityFilters(server: StateServer, known: Result<FclassesReply, ClientError>, fclasses: seq<string>)
    returns (r: Result<FilterResult, ClientError>)
    modifies server`stored
    ensures known.Err? ==> r == Err(known.error) && server.stored == old(server.stored)
    ensures known.Ok? && ValidateFilters(fclasses, known.value).Some? ==>
      r == Ok(Rejected(ValidateFilters(fclasses, known.value).value)) && server.stored == old(server.stored)
    ensures known.Ok? && ValidateFilters(fclasses, known.value).None? && server.available ==>
      && server.stored == Some(CurrentState(old(server.stored)).(selectedFclasses := fclasses))
      && r == Ok(Forwarded(FiltersSaved(fclasses)))
    ensures known.Ok? && ValidateFilters(fclasses, known.value).None? && !server.available ==>
      server.stored == old(server.stored) && r == Err(HttpStatusError(500, "Redis connection error"))
  {
    if known.Err? { return Err(known.error); }
    var rejection := ValidateFilters(fclasses, known.value);
    if rejection.Some? { return Ok(Rejected(rejection.value)); }
    var result := ApiRequest(server, "POST", "/filters", FiltersData(fclasses));
    if result.Err? { return Err(result.error); }
    r := Ok(Forwarded(result.value));
  }

  /** The body `set_map_view` posts: the centre as latitude then longitude. */
  function MapViewPayload(latitude: Coord, longitude: Coord, zoom: int): (p: Payload)
    ensures p.MapData? && |p.update.center| == 2
    ensures p.update.center[0] == latitude && p.update.center[1] == longitude
    ensures p.update.zoom == zoom
  {
    MapData(MapUpdate([latitude, longitude], zoom))
  }

  /** `set_map_view`: move the map to `[latitude, longitude]` at `zoom`, keeping the selection. */
  method SetMapView(server: StateServer, latitude: Coord, longitude: Coord, zoom: int)
    returns (r: Result<Response, ClientError>)
    modifies server`stored
    ensures server.available ==> (
      && server.stored.Some?
      && server.stored.value.mapCenter == Some([latitude, longitude])
      && server.stored.value.zoomLevel == Some(zoom)
      && server.stored.value.selectedFclasses == CurrentState(old(server.stored)).selectedFclasses
      && r == Ok(MapSaved(MapUpdate([latitude, longitude], zoom))))
    ensures !server.available ==>
      server.stored == old(server.stored) && r == Err(HttpStatusError(500, "Redis connection error"))
  {
    r := ApiRequest(server, "POST", "/map", MapViewPayload(latitude, longitude, zoom));
  }

  /** `reset_app`. */
  method ResetApp(server: StateServer) returns (r: Result<Response, ClientError>)
    modifies server`stored
    ensures server.available ==> server.stored == None && r == Ok(ResetDone(ResetMessage))
    ensures !server.available ==>
      server.stored == old(server.stored) && r == Err(HttpStatusError(500, "Redis connection error"))
  {
    r := ApiRequest(server, "DELETE", "/state", NoData);
  }

  /** `check_health`: never raises for a Redis outage, and never writes. */
  method CheckHealth(server: StateServer) returns (r: Result<Response, ClientError>)
    modifies server`stored
    ensures server.stored == old(server.stored)
    ensures r.Ok? && r.value.HealthReport?
    ensures r.value.status == "healthy" <==> server.available
    ensures r.value.redis == "connected" <==> server.available
    ensures !server.available ==> r.value.status == "unhealthy" && r.value.redis == "disconnected"
  {
    r := ApiRequest(server, "GET", "/health", NoData);
  }
}
