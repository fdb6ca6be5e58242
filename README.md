# Shared app state of the health-facilities map, in Dafny

The repository keeps one piece of shared view state: the selected facility
classes and the map viewport. It lives as a single JSON document under the
Redis key `app_state`, behind a small FastAPI service (`api_server.py`). An
automation adapter built on FastMCP (`mcp_server_fastmcp.py`) reads and changes
that state over HTTP. Before it writes a filter selection, the adapter checks
the selection against the list of known facility classes.

This project models both parts:

- `wrappers.dfy` (module `Wrappers`): `Option` and `Result`.
- `app_state_api.dfy` (module `AppStateApi`): the records `AppState` and
  `MapUpdate`, and pydantic's defaults for a `POST /state` body. The Redis
  client is the class `StateServer`. Its field `stored` is the optional
  document, and its field `available` says whether Redis answers; when it does
  not, every Redis call raises `redis.RedisError`. The six handlers are methods
  of that class. `Serve` is the pure specification of one request and `Run`
  serves a sequence of requests; the lemmas are stated over both.
- `string_order.dfy` (module `StringOrder`): Python's ordering of strings and
  `sorted(list(set(xs)))`, both as functions. The lemmas prove the ordering is a
  strict total order, and prove the sorted result is unique for a given set of
  elements.
- `controller_tools.dfy` (module `ControllerTools`): the adapter. It covers
  `_api_request`'s method check and the routing of a request to its handler.
  It computes the unknown-class list and the rejection, and has one method per
  tool, each running against a `StateServer`.

JSON encoding and decoding are the identity on records. Coordinates have the
abstract type `Coord`, because they are only stored and carried. Requests are
served one after another.

Behaviour of the code a reader might not expect; the model follows the code:

- The service publishes no change event after a write, although `main.py`
  subscribes to `app_state_changes` (main.py:35). Nothing here models
  notifications.
- `map_center` is any list of floats (`List[float]`, api_server.py:13). It is
  not checked to be a pair, although the adapter always sends one
  (mcp_server_fastmcp.py:76).
- `selected_fclasses` is stored as the list it was given, with order and
  repeats kept. It is not a set.
- `list_facility_classes` returns the fetched list as it is, without removing
  duplicates; the front end applies `unique()` to its own data instead
  (main.py:65).
- `api_server.py` has no `/fclasses` handler, so `Route(Get, "/fclasses",
  NoData)` is a 404 (mcp_server_fastmcp.py:50, 58). Against this service,
  `list_facility_classes` and `set_facility_filters` therefore always raise; the
  model takes the fetched reply as an input so that the rest of both tools can
  still be stated.

## Model

| member | source | states |
|---|---|---|
| `AppStateApi.DefaultState` | api_server.py:27 | the document reported when nothing is stored: no selected classes, no map centre, zoom 12 |
| `AppStateApi.ParseAppState` | api_server.py:11-14 | the selection is kept; an omitted `map_center` becomes None and an omitted `zoom_level` becomes 12; a field given explicitly, even as null, is kept as given |
| `AppStateApi.CurrentState` | api_server.py:24-27 | the document a read reports: the stored one, or the default when nothing is stored |
| `AppStateApi.Serve` | api_server.py:20-79 | reads, the health probe and requests Redis does not answer keep the slot; the answer is an error exactly when Redis does not answer and the request is not the probe, and that error is 500 "Redis connection error" |
| `AppStateApi.StateServer.constructor` | api_server.py:9 | a client over whatever Redis already holds under `app_state`, answering or not |
| `AppStateApi.StateServer.RedisGet` | api_server.py:24 | reading the key yields the slot when Redis answers and a Redis error otherwise |
| `AppStateApi.StateServer.RedisSet` | api_server.py:35 | writing the key replaces the slot when Redis answers; otherwise it raises and the slot is unchanged |
| `AppStateApi.StateServer.RedisDelete` | api_server.py:67 | deleting the key empties the slot, even an already empty one, when Redis answers; otherwise it raises and the slot is unchanged |
| `AppStateApi.StateServer.RedisPing` | api_server.py:76 | the ping succeeds exactly when Redis answers |
| `AppStateApi.StateServer.GetState` | api_server.py:20-29 | returns the stored document if there is one and the default document if not; fails with 500 "Redis connection error" when Redis does not answer |
| `AppStateApi.StateServer.SetState` | api_server.py:31-38 | stores exactly the given document and echoes it; when Redis does not answer, fails with 500 and leaves the slot unchanged |
| `AppStateApi.StateServer.SetFilters` | api_server.py:40-49 | the new document has the given selection, plus the map centre and zoom that a read reported before the write (stored or default); the answer echoes the selection; on a Redis failure, 500 and no write |
| `AppStateApi.StateServer.UpdateMap` | api_server.py:51-61 | the new document has the given centre and zoom, plus the selection that a read reported before the write; the answer echoes the update; on a Redis failure, 500 and no write |
| `AppStateApi.StateServer.ResetState` | api_server.py:63-70 | afterwards nothing is stored, and the answer is success with the message "State reset to defaults"; on a Redis failure, 500 and no change |
| `AppStateApi.StateServer.HealthCheck` | api_server.py:72-79 | never fails; reports healthy and connected exactly when Redis answers, otherwise unhealthy and disconnected; changes nothing |
| `AppStateApi.StateServer.Dispatch` | api_server.py:20-79 | serving any request through its handler gives exactly the new slot and the answer that `Serve` specifies |
| `AppStateApi.ReplaceThenRead` | api_server.py:20-36 | a replace answers with the document it stored; a read right after returns that document field for field, with the declared defaults for omitted fields |
| `AppStateApi.FiltersAndMapCommute` | api_server.py:40-58 | a filter update and a map update, in either order and from any start, leave the same document, which carries both updates |
| `AppStateApi.ResetIdempotent` | api_server.py:63-68 | a reset leaves nothing stored, a second reset gives the same slot and answer, and a read afterwards returns the default document |
| `AppStateApi.UnavailableNoWrite` | api_server.py:28-70 | when Redis does not answer, no request changes the slot, and every request except the health probe fails with 500 |
| `AppStateApi.AvailableNeverFails` | api_server.py:20-70 | when Redis answers, every request succeeds |
| `AppStateApi.HealthIsReadOnly` | api_server.py:72-79 | the health probe never fails and never writes, and reports healthy and connected exactly when Redis answers |
| `AppStateApi.Run` | api_server.py:31-68 | an empty sequence keeps the slot; when the last request is a replace or a reset that Redis answers, the slot ends as that document or empty, whatever came before |
| `AppStateApi.FailedStepsLeaveNoTrace` | api_server.py:28-70 | in any sequence of requests, dropping the ones Redis did not answer leaves the final slot unchanged |
| `AppStateApi.ReadOnlyStepsKeepDocument` | api_server.py:20-79 | reads, health probes and failed requests, in any number and order, leave the slot as it was |
| `AppStateApi.ReplaceSurvivesReads` | api_server.py:31-36 | after a successful replace followed only by reads, probes or failed requests, the stored and reported document is the one replaced |
| `StringOrder.Less` | mcp_server_fastmcp.py:66 | a proper prefix sorts before the longer string, and no string is related to itself |
| `StringOrder.LessIrreflexive` | mcp_server_fastmcp.py:66 | no string sorts before itself under Python's string order |
| `StringOrder.LessTotal` | mcp_server_fastmcp.py:66 | any two different strings are ordered one way or the other |
| `StringOrder.LessTransitive` | mcp_server_fastmcp.py:66 | the string order is transitive |
| `StringOrder.LessAsymmetric` | mcp_server_fastmcp.py:66 | no two strings sort each before the other |
| `StringOrder.Insert` | mcp_server_fastmcp.py:66 | inserting into a strictly ascending sequence keeps it strictly ascending, and adds exactly the new element, once |
| `StringOrder.SortedDistinct` | mcp_server_fastmcp.py:59-66 | `sorted(list(set(xs)))` is strictly ascending (so has no repeats), and its elements are exactly those of `xs` |
| `StringOrder.AscendingUnique` | mcp_server_fastmcp.py:66 | two strictly ascending sequences with the same elements are equal |
| `StringOrder.SortedDistinctOfSameSet` | mcp_server_fastmcp.py:59-66 | the sorted allowed list depends only on the set of known classes, not on their order or repeats in the fetched list |
| `ControllerTools.ParseVerb` | mcp_server_fastmcp.py:29-36 | exactly "GET", "POST" and "DELETE" are accepted, each as its own verb |
| `ControllerTools.Route` | api_server.py:20-72 | each handler is reached exactly by its declared method and path (a POST also needs a body of the right shape); the body is passed on unchanged or, for `/state`, with pydantic's defaults; an unknown path gets 404, a known path with another method 405, and a POST whose body does not fit its handler 422 |
| `ControllerTools.RaiseForStatus` | mcp_server_fastmcp.py:37-38 | a successful answer is returned unchanged, and an error status turns into an HTTP status error with the same code and detail |
| `ControllerTools.ApiRequest` | mcp_server_fastmcp.py:26-38 | any method other than GET, POST or DELETE is rejected before a request is made, and the slot is unchanged; otherwise the slot and the answer are those of serving the routed request, or of a routing error that writes nothing |
| `ControllerTools.KnownClasses` | mcp_server_fastmcp.py:51 | the fetched `fclasses` list as it is, or the empty list when the key is missing |
| `ControllerTools.AllowedSet` | mcp_server_fastmcp.py:59 | the allowed set holds exactly the fetched classes, or nothing when the key is missing |
| `ControllerTools.ListFacilityClasses` | mcp_server_fastmcp.py:47-51 | returns the fetched list, an empty list when the `fclasses` key is missing, and the fetch's error when the fetch fails |
| `ControllerTools.Invalid` | mcp_server_fastmcp.py:60 | holds exactly the requested classes that are not allowed; it is empty exactly when every requested class is allowed |
| `ControllerTools.InvalidConcat` | mcp_server_fastmcp.py:60 | the unknown classes of a request are those of any prefix followed by those of the rest, so request order is kept |
| `ControllerTools.InvalidCounts` | mcp_server_fastmcp.py:60 | each unknown class appears as many times as it was requested, and each known class not at all |
| `ControllerTools.ValidateFilters` | mcp_server_fastmcp.py:57-67 | a request is accepted exactly when every requested class is known, the empty request included; a rejection carries the message, the non-empty unknown list and an allowed list that is strictly ascending (so has no repeats) and holds exactly the known classes |
| `ControllerTools.GetAppState` | mcp_server_fastmcp.py:41-44 | returns the document a read reports and never writes; raises for a 500 when Redis does not answer |
| `ControllerTools.SetFacilityFilters` | mcp_server_fastmcp.py:54-70 | a failed fetch raises and a rejected request returns the rejection, and neither writes; an accepted request forwards exactly the requested list to `/filters`, the stored selection becomes that list with the map fields kept, and the answer echoes it; a Redis failure raises for the 500 and writes nothing |
| `ControllerTools.MapViewPayload` | mcp_server_fastmcp.py:76 | the map body has a two-element centre, latitude first and longitude second, and carries the zoom unchanged |
| `ControllerTools.SetMapView` | mcp_server_fastmcp.py:73-78 | the stored centre becomes `[latitude, longitude]` in that order, the zoom is passed through and the selection is kept; a Redis failure raises for the 500 and writes nothing |
| `ControllerTools.ResetApp` | mcp_server_fastmcp.py:81-85 | afterwards nothing is stored and the answer is the reset message; a Redis failure raises for the 500 and writes nothing |
| `ControllerTools.CheckHealth` | mcp_server_fastmcp.py:88-91 | never raises and never writes, reports healthy and connected exactly when Redis answers, and unhealthy and disconnected otherwise |

## Left out

- `main.py`, the Streamlit front end, is not part of this model. It covers GeoJSON loading, the folium map, the client's copy of the default document, and the pub/sub poll loop built on `asyncio.sleep` and `st.rerun`.
- `mcp_server.py`, the stdio MCP server, is not part of this model. It makes the same requests as the FastMCP adapter, but without the filter check.
- Change notifications: `main.py` subscribes to `app_state_changes`, but the service never publishes to it. No publish step is modelled.
- `GET /fclasses`: the adapter calls it, but `api_server.py` has no such handler, so the request is routed to a 404. The fetched reply, or the error from the fetch, is an input of `ListFacilityClasses` and `SetFacilityFilters`, so their behaviour against a service that does answer is stated too.
- HTTP transport is summarised, not modelled. This covers httpx, the 5-second timeout, and uvicorn. A request reaches the `StateServer` directly.
- FastAPI's own 404, 405 and 422 answers appear as a status code with a short detail. The framework's exact error bodies are left out.
- Pydantic validation of JSON types is left out: inputs are already-typed records. Only the field defaults of `AppState` and the fitting of a body to its handler are modelled.
- Redis internals are left out. Redis is one optional slot plus an availability flag that stays fixed during one request. A failure between the read and the write of `set_filters` or `update_map` therefore cannot be expressed; it would also leave no write, because the write is the single `set`.
- Floating point is left out: coordinates are an abstract type, and nothing computes on them.
- Concurrency is left out. This covers the async handlers and the unlocked read-modify-write race between `set_filters` and `update_map`. Requests are served strictly in sequence.
- The tools' `{"status": "success", **result}` merge is modelled as returning the reply unchanged. Every reply it merges already carries status "success".
- `generate_claude_config` and `main` in the MCP adapter are left out. They deal with filesystem paths, printing and process start-up.
