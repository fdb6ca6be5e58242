/**
 * The shared app-state service of `api_server.py`: one optional document stored
 * under the Redis key `app_state`, and the HTTP handlers that read, replace,
 * partially update and delete it.
 *
 * The Redis client is a `StateServer` object whose field `stored` is the slot
 * (already decoded: JSON encoding and decoding are the identity on records) and
 * whose field `available` says whether Redis answers at all; when it does not,
 * every Redis call raises `redis.RedisError`. The handlers are the methods of
 * that class; `Serve` is the pure specification of one request, and the lemmas
 * after it relate successive requests.
 */
module AppStateApi {
  import opened Wrappers

  /** A coordinate as the JSON body carries it; the service never computes on one. */
  type Coord(==)

  /** The stored document (the pydantic model `AppState`). */
  datatype AppState = AppState(
    selectedFclasses: seq<string>,
    mapCenter: Option<seq<Coord>>,
    zoomLevel: Option<int>)

  /** The body of `POST /map` (the pydantic model `MapUpdate`); `center` is any list. */
  datatype MapUpdate = MapUpdate(center: seq<Coord>, zoom: int)

  /** A field of a JSON request body: left out, or given (possibly as `null`). */
  datatype Field<+T> = Omitted | Given(value: T)

  /** The body of `POST /state` before pydantic fills in the declared defaults. */
  datatype AppStateBody = AppStateBody(
    selectedFclasses: seq<string>,
    mapCenter: Field<Option<seq<Coord>>>,
    zoomLevel: Field<Option<int>>)

  /** What `redis.RedisError` stands for: Redis could not be reached. */
  datatype RedisError = RedisConnectionError

  /** An `HTTPException` raised by a handler. */
  datatype HttpError = HttpError(statusCode: int, detail: string)

  /** The JSON bodies the handlers answer with. */
  datatype Response =
    | StateDoc(state: AppState)                   // GET /state
    | StateSaved(state: AppState)                 // POST /state: {status: success, state}
    | FiltersSaved(selectedFclasses: seq<string>) // POST /filters: {status: success, selected_fclasses}
    | MapSaved(view: MapUpdate)                   // POST /map: {status: success, map}
    | ResetDone(message: string)                  // DELETE /state: {status: success, message}
    | HealthReport(status: string, redis: string) // GET /health

  /** One request to the service, its body already parsed: the six handlers. */
  datatype Call =
    | GetStateCall
    | SetStateCall(state: AppState)
    | SetFiltersCall(fclasses: seq<string>)
    | UpdateMapCall(update: MapUpdate)
    | ResetCall
    | HealthCall

  /** The slot after a request, and the request's answer. */
  datatype Outcome = Outcome(stored: Option<AppState>, response: Result<Response, HttpError>)

  const DefaultZoom: int := 12
  const StoreError: HttpError := HttpError(500, "Redis connection error")
  const ResetMessage: string := "State reset to defaults"

  /** The document `GET /state` reports when nothing is stored. */
  function DefaultState(): (s: AppState)
    ensures s.selectedFclasses == [] && s.mapCenter == None && s.zoomLevel == Some(DefaultZoom)
  {
    AppState([], None, Some(DefaultZoom))
  }

  /** The value of a body field, or the model's declared default when it is left out. */
  function FieldOr<T>(f: Field<T>, default: T): T {
    match f
    case Given(v) => v
    case Omitted => default
  }

  /**
   * Pydantic's reading of a `POST /state` body: an omitted `map_center` is None,
   * an omitted `zoom_level` is 12, and a field given explicitly (even as null)
   * is kept as given.
   */
  function ParseAppState(body: AppStateBody): (s: AppState)
    ensures s.selectedFclasses == body.selectedFclasses
    ensures body.mapCenter.Omitted? ==> s.mapCenter == None
    ensures body.mapCenter.Given? ==> s.mapCenter == body.mapCenter.value
    ensures body.zoomLevel.Omitted? ==> s.zoomLevel == Some(DefaultZoom)
    ensures body.zoomLevel.Given? ==> s.zoomLevel == body.zoomLevel.value
  {
    AppState(body.selectedFclasses, FieldOr(body.mapCenter, None), FieldOr(body.zoomLevel, Some(DefaultZoom)))
  }

  /** The document a successful `GET /state` reports for a slot. */
  function CurrentState(stored: Option<AppState>): (s: AppState)
    ensures stored.Some? ==> s == stored.value
    ensures stored.None? ==> s == DefaultState()
  {
    stored.GetOr(DefaultState())
  }

  /** The effect and the answer of one request, given the slot and whether Redis answers. */
  function Serve(stored: Option<AppState>, available: bool, call: Call): (o: Outcome)
    ensures call.GetStateCall? || call.HealthCall? || !available ==> o.stored == stored
    ensures o.response.Err? <==> !available && !call.HealthCall?
    ensures o.response.Err? ==> o.response.error == StoreError
  {
    match call
    case HealthCall =>
      Outcome(stored, Ok(if available then HealthReport("healthy", "connected")
                         else HealthReport("unhealthy", "disconnected")))
    case _ =>
      if !available then Outcome(stored, Err(StoreError))
      else match call
        case GetStateCall => Outcome(stored, Ok(StateDoc(CurrentState(stored))))
        case SetStateCall(s) => Outcome(Some(s), Ok(StateSaved(s)))
        case SetFiltersCall(fs) =>
          Outcome(Some(CurrentState(stored).(selectedFclasses := fs)), Ok(FiltersSaved(fs)))
        case UpdateMapCall(u) =>
          Outcome(Some(CurrentState(stored).(mapCenter := Some(u.center), zoomLevel := Some(u.zoom))),
                  Ok(MapSaved(u)))
        case ResetCall => Outcome(None, Ok(ResetDone(ResetMessage)))
  }

  /** The process-wide Redis client together with the slot it serves. */
  class StateServer {
    /** The decoded document under `app_state`; None when the key is absent. */
    var stored: Option<AppState>
    /** Whether Redis answers; when false every Redis call raises `redis.RedisError`. */
    var available: bool

    /** A client over whatever Redis already holds under `app_state`. */
    constructor (stored: Option<AppState>, available: bool)
      ensures this.stored == stored && this.available == available
    {
      this.stored := stored;
      this.available := available;
    }

    /** `redis_client.get("app_state")`, decoded. */
    method RedisGet() returns (r: Result<Option<AppState>, RedisError>)
      ensures available ==> r == Ok(stored)
      ensures !available ==> r == Err(RedisConnectionError)
    {
      if !available { return Err(RedisConnectionError); }
      r := Ok(stored);
    }

    /** `redis_client.set("app_state", ...)` with an encoded document. */
    method RedisSet(doc: AppState) returns (r: Result<(), RedisError>)
      modifies this`stored
      ensures available ==> stored == Some(doc) && r == Ok(())
      ensures !available ==> stored == old(stored) && r == Err(RedisConnectionError)
    {
      if !available { return Err(RedisConnectionError); }
      stored := Some(doc);
      r := Ok(());
    }

    /** `redis_client.delete("app_state")`; deleting an absent key is not an error. */
    method RedisDelete() returns (r: Result<(), RedisError>)
      modifies this`stored
      ensures available ==> stored == None && r == Ok(())
      ensures !available ==> stored == old(stored) && r == Err(RedisConnectionError)
    {
      if !available { return Err(RedisConnectionError); }
      stored := None;
      r := Ok(());
    }

    /** `redis_client.ping()`. */
    method RedisPing() returns (r: Result<(), RedisError>)
      ensures r.Ok? <==> available
    {
      if !available { return Err(RedisConnectionError); }
      r := Ok(());
    }

    /** `GET /state`: the stored document, or the default one when nothing is stored. */
    method GetState() returns (r: Result<AppState, HttpError>)
      ensures available && stored.Some? ==> r == Ok(stored.value)
      ensures available && stored.None? ==> r == Ok(DefaultState())
      ensures !available ==> r == Err(StoreError)
    {
      var got := RedisGet();
      if got.Err? { return Err(StoreError); }
      if got.value.Some? { return Ok(got.value.value); }
      r := Ok(DefaultState());
    }

    /** `POST /state`: store the document as given and echo it. */
    method SetState(state: AppState) returns (r: Result<Response, HttpError>)
      modifies this`stored
      ensures available ==> stored == Some(state) && r == Ok(StateSaved(state))
      ensures !available ==> stored == old(stored) && r == Err(StoreError)
    {
      var written := RedisSet(state);
      if written.Err? { return Err(StoreError); }
      r := Ok(StateSaved(state));
    }

    /**
     * `POST /filters`: read the current document, replace its selection, write it
     * back and echo the selection. The map fields keep what `GET /state` reported.
     */
    method SetFilters(fclasses: seq<string>) returns (r: Result<Response, HttpError>)
      modifies this`stored
      ensures available ==> (
        && stored.Some?
        && stored.value.selectedFclasses == fclasses
        && stored.value.mapCenter == CurrentState(old(stored)).mapCenter
        && stored.value.zoomLevel == CurrentState(old(stored)).zoomLevel
        && r == Ok(FiltersSaved(fclasses)))
      ensures !available ==> stored == old(stored) && r == Err(StoreError)
    {
      var current := GetState();
      if current.Err? { return Err(current.error); }
      var doc := current.value.(selectedFclasses := fclasses);
      var written := RedisSet(doc);
      if written.Err? { return Err(StoreError); }
      r := Ok(FiltersSaved(fclasses));
    }

    /**
     * `POST /map`: read the current document, replace its centre and zoom, write it
     * back and echo the update. The selection keeps what `GET /state` reported.
     */
    method UpdateMap(update: MapUpdate) returns (r: Result<Response, HttpError>)
      modifies this`stored
      ensures available ==> (
        && stored.Some?
        && stored.value.selectedFclasses == CurrentState(old(stored)).selectedFclasses
        && stored.value.mapCenter == Some(update.center)
        && stored.value.zoomLevel == Some(update.zoom)
        && r == Ok(MapSaved(update)))
      ensures !available ==> stored == old(stored) && r == Err(StoreError)
    {
      var current := GetState();
      if current.Err? { return Err(current.error); }
      var doc := current.value.(mapCenter := Some(update.center), zoomLevel := Some(update.zoom));
      var written := RedisSet(doc);
      if written.Err? { return Err(StoreError); }
      r := Ok(MapSaved(update));
    }

    /** `DELETE /state`: remove the document, whether or not one is stored. */
    method ResetState() returns (r: Result<Response, HttpError>)
      modifies this`stored
      ensures available ==> stored == None && r == Ok(ResetDone(ResetMessage))
      ensures !available ==> stored == old(stored) && r == Err(StoreError)
    {
      var deleted := RedisDelete();
      if deleted.Err? { return Err(StoreError); }
      r := Ok(ResetDone(ResetMessage));
    }

    /** `GET /health`: never fails; reports whether Redis answers a ping. */
    method HealthCheck() returns (r: Response)
      ensures r.HealthReport?
      ensures r.status == "healthy" <==> available
      ensures r.redis == "connected" <==> available
      ensures !available ==> r.status == "unhealthy" && r.redis == "disconnected"
    {
      var pong := RedisPing();
      if pong.Ok? {
        r := HealthReport("healthy", "connected");
      } else {
        r := HealthReport("unhealthy", "disconnected");
      }
    }

    /** The handler a request reaches, run against this server. */
    method Dispatch(call: Call) returns (r: Result<Response, HttpError>)
      modifies this`stored
      ensures Outcome(stored, r) == Serve(old(stored), available, call)
    {
      match call
      case GetStateCall =>
        var got := GetState();
        r := if got.Ok? then Ok(StateDoc(got.value)) else Err(got.error);
      case SetStateCall(s) => r := SetState(s);
      case SetFiltersCall(fs) => r := SetFilters(fs);
      case UpdateMapCall(u) => r := UpdateMap(u);
      case ResetCall => r := ResetState();
      case HealthCall =>
        var report := HealthCheck();
        r := Ok(report);
    }
  }

  // Properties of single requests and of pairs of requests.

  /** A replaced document is read back field for field, with the declared defaults. */
  lemma ReplaceThenRead(stored: Option<AppState>, body: AppStateBody)
    ensures var s := ParseAppState(body);
      var written := Serve(stored, true, SetStateCall(s));
      && written.response == Ok(StateSaved(s))
      && Serve(written.stored, true, GetStateCall) == Outcome(Some(s), Ok(StateDoc(s)))
      && s.selectedFclasses == body.selectedFclasses
      && (body.mapCenter.Omitted? ==> s.mapCenter == None)
      && (body.zoomLevel.Omitted? ==> s.zoomLevel == Some(DefaultZoom))
  {
  }

  /** Whatever was stored, a filter update and a map update in either order keep both. */
  lemma FiltersAndMapCommute(stored: Option<AppState>, fclasses: seq<string>, update: MapUpdate)
    ensures var both := Some(AppState(fclasses, Some(update.center), Some(update.zoom)));
      && Serve(Serve(stored, true, SetFiltersCall(fclasses)).stored, true, UpdateMapCall(update)).stored == both
      && Serve(Serve(stored, true, UpdateMapCall(update)).stored, true, SetFiltersCall(fclasses)).stored == both
  {
  }

  /** A reset leaves nothing stored, reads then give the default, and a second reset changes nothing. */
  lemma ResetIdempotent(stored: Option<AppState>)
    ensures var once := Serve(stored, true, ResetCall);
      && once == Outcome(None, Ok(ResetDone(ResetMessage)))
      && Serve(once.stored, true, ResetCall) == once
      && Serve(once.stored, true, GetStateCall).response == Ok(StateDoc(DefaultState()))
  {
  }

  /** When Redis does not answer, no request writes, and every request but the probe fails with 500. */
  lemma UnavailableNoWrite(stored: Option<AppState>, call: Call)
    ensures Serve(stored, false, call).stored == stored
    ensures !call.HealthCall? ==> Serve(stored, false, call).response == Err(StoreError)
  {
  }

  /** When Redis answers, no request fails. */
  lemma AvailableNeverFails(stored: Option<AppState>, call: Call)
    ensures Serve(stored, true, call).response.Ok?
  {
  }

  /** The probe never fails, never writes, and reports healthy exactly when Redis answers. */
  lemma HealthIsReadOnly(stored: Option<AppState>, available: bool)
    ensures var o := Serve(stored, available, HealthCall);
      && o.stored == stored
      && o.response.Ok? && o.response.value.HealthReport?
      && (o.response.value.status == "healthy" <==> available)
      && (o.response.value.redis == "connected" <==> available)
  {
  }

  // Sequences of requests, served one after another.

  /** One request together with whether Redis answered while it was served. */
  datatype Step = Step(call: Call, available: bool)

  /**
   * The slot after serving `steps` in order. Last write wins: a final successful
   * replace leaves its document, and a final successful reset leaves nothing.
   */
  function Run(stored: Option<AppState>, steps: seq<Step>): (r: Option<AppState>)
    ensures steps == [] ==> r == stored
    ensures steps != [] && steps[|steps| - 1].available && steps[|steps| - 1].call.SetStateCall? ==>
      r == Some(steps[|steps| - 1].call.state)
    ensures steps != [] && steps[|steps| - 1] == Step(ResetCall, true) ==> r == None
    decreases |steps|
  {
    if steps == [] then stored
    else Run(Serve(stored, steps[0].available, steps[0].call).stored, steps[1..])
  }

  /** The steps served while Redis answered. */
  function Answered(steps: seq<Step>): (r: seq<Step>)
    ensures |r| <= |steps|
    ensures forall i :: 0 <= i < |r| ==> r[i].available
  {
    if steps == [] then []
    else (if steps[0].available then [steps[0]] else []) + Answered(steps[1..])
  }

  /** A step that cannot change the slot: a read, the probe, or any request Redis did not answer. */
  predicate ReadOnly(step: Step) {
    !step.available || step.call.GetStateCall? || step.call.HealthCall?
  }

  /** Requests that failed for lack of Redis leave no trace: dropping them changes nothing. */
  lemma {:induction false} FailedStepsLeaveNoTrace(stored: Option<AppState>, steps: seq<Step>)
    ensures Run(stored, steps) == Run(stored, Answered(steps))
    decreases |steps|
  {
    if steps != [] {
      UnavailableNoWrite(stored, steps[0].call);
      var next := Serve(stored, steps[0].available, steps[0].call).stored;
      FailedStepsLeaveNoTrace(next, steps[1..]);
      if steps[0].available {
        assert Answered(steps) == [steps[0]] + Answered(steps[1..]);
        assert Answered(steps)[1..] == Answered(steps[1..]);
      } else {
        assert Answered(steps) == Answered(steps[1..]);
      }
    }
  }

  /** Reads, probes and failed requests never change the slot. */
  lemma {:induction false} ReadOnlyStepsKeepDocument(stored: Option<AppState>, steps: seq<Step>)
    requires forall i :: 0 <= i < |steps| ==> ReadOnly(steps[i])
    ensures Run(stored, steps) == stored
    decreases |steps|
  {
    if steps != [] {
      assert ReadOnly(steps[0]);
      UnavailableNoWrite(stored, steps[0].call);
      ReadOnlyStepsKeepDocument(stored, steps[1..]);
    }
  }

  /** After a successful replace followed only by read-only steps, a read returns the replaced document. */
  lemma ReplaceSurvivesReads(stored: Option<AppState>, s: AppState, later: seq<Step>)
    requires forall i :: 0 <= i < |later| ==> ReadOnly(later[i])
    ensures Run(stored, [Step(SetStateCall(s), true)] + later) == Some(s)
    ensures Serve(Run(stored, [Step(SetStateCall(s), true)] + later), true, GetStateCall).response == Ok(StateDoc(s))
  {
    var steps := [Step(SetStateCall(s), true)] + later;
    assert steps[1..] == later;
    ReadOnlyStepsKeepDocument(Some(s), later);
  }
}
