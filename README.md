# Weather polling and event-stream adapter, modelled in Dafny

The server in `mcp_server.py` asks a weather provider for the current weather
of a city and re-exposes the answer in two ways:

- `GET /weather/{city}` (`get_weather`): one fetch, one reply — `get_weather`
  returns the normalised record serialised with `json.dumps(..., indent=2)`,
  or the text `Failed to fetch weather data.` when the fetch gave nothing.
- `GET /sse?city=...` (`sse_weather_stream`, city `Jakarta` by default): an
  endless loop that fetches, yields one server-sent-event frame
  (`event: get_weather` with the record, or `event: error` with
  `{"error": ...}`), sleeps 60 seconds and starts again; an exception in an
  iteration becomes an `error` frame and the loop goes on.

Both surfaces build the same 16-field record ("snapshot") from the provider's
JSON by nested `.get` lookups with renaming; they hold two hand-written copies
of that code.

The model:

- `wrappers.dfy` — `Option` and `Result` (the latter used with `:-` for a
  Python exception that leaves an expression or a `try` block).
- `pyjson.dfy` — decoded JSON values, Python truth testing (`if data`),
  `dict.get`, and the `AttributeError` that `.get` raises on a non-dict,
  with its message text.
- `weather.dfy` — the snapshot, the pull endpoint's normalisation
  `Normalize`, and an independent declarative description of it: a field
  table of output keys and source paths (`FieldTable`, `TableRecord`), the
  input shapes the lookups accept (`WellShaped`) and the value that raises
  first otherwise (`Offender`).
- `weatherapi.dfy` — the request URL both surfaces build.
- `eventstream.dfy` — frame rendering and a client-side reader of the event
  stream after the WHATWG HTML Living Standard, sections 9.2.5 and 9.2.6.
- `pullendpoint.dfy` — `get_weather`.
- `weatherstream.dfy` — the frame each iteration yields, the stream's own copy
  of the record literal inside the `try` block (`Attempt`), and the loop
  (`Publish`).

The HTTP call is an input: the pull endpoint takes a function from URL to
fetch result, and the loop takes one fetch result per iteration. `json.dumps`
is a function-typed parameter (`Dumps`), one for each surface, since its exact
output is outside the model.

## Model

| member | source | states |
|---|---|---|
| `Weather.Normalize` | mcp_server.py:49-71 | Succeeds exactly when the input is a dict whose `location`, `current` and `current.condition` are each absent or a dict; then the record equals the field table's (each output key the renamed source key's value, null when a key on its path is absent); otherwise it raises `AttributeError` on the first non-dict receiver in Python's evaluation order (data, `current`, `location`, `condition`) |
| `Weather.FieldTableRenamings` | mcp_server.py:55-70 | An output key differs from its source key exactly for the nine pairs name→city, localtime→local_time, lat→latitude, lon→longitude, temp_c→temperature_c, uv→uv_index, vis_km→visibility_km, text→condition, icon→condition_icon; all other keys keep their names |
| `Weather.AbsentLocationNullsLocationFields` | mcp_server.py:49-60 | Removing the `location` key from an input that normalises makes the six location fields null and leaves the other ten unchanged |
| `Weather.AbsentCurrentNullsCurrentFields` | mcp_server.py:50-70 | Removing the `current` key from an input that normalises makes the ten current and condition fields null and leaves the six location fields unchanged |
| `Weather.AbsentConditionNullsConditionFields` | mcp_server.py:51-70 | Removing the `condition` key from `current` in an input that normalises makes the two condition fields null and leaves the other fourteen unchanged |
| `Weather.JakartaExample` | mcp_server.py:49-71 | For a response with some keys missing, present values are copied under their output names (city, local_time, temperature_c, condition, condition_icon) and the missing ones (humidity, wind_kph, latitude) are null |
| `WeatherApi.CityOfRequestUrl` | mcp_server.py:43 | The city can be read back from the URL built for it |
| `WeatherApi.RequestUrlInjective` | mcp_server.py:81 | Two cities give the same request URL only if they are equal |
| `PullEndpoint.GetWeather` | mcp_server.py:41-73 | A falsy fetch result (None, `{}`, ...) gives exactly `Failed to fetch weather data.`; a well-shaped one gives the indented serialisation of the table record; any other lets the `AttributeError` of the first non-dict receiver escape |
| `WeatherStream.FrameFor` | mcp_server.py:83-113 | Each iteration's event is `get_weather` or `error`; `get_weather` exactly when the fetch result is truthy and well shaped, then carrying the serialised table record; on a falsy result the payload is `{"error": "Failed to fetch weather data"}`; on an exception `{"error": <exception text>}` |
| `WeatherStream.FramesFor` | mcp_server.py:79-114 | A run yields exactly one event per fetch result |
| `WeatherStream.Attempt` | mcp_server.py:80-109 | The stream's own copy of the lookups and record literal yields the frame `FrameFor` describes, which uses the pull endpoint's normalisation, and raises for exactly the inputs and with exactly the exception that normalisation raises |
| `WeatherStream.Publish` | mcp_server.py:79-114 | After n iterations there are n frames and n requests (the city defaulting to `Jakarta`): every iteration requests, through its own copy of the f-string, the same URL as the pull endpoint and yields exactly one frame whatever happened (success, falsy result or exception, which becomes an `error` frame); what the subscriber receives is the wire form of those frames |
| `WeatherStream.StreamReadsBack` | mcp_server.py:106-113 | When the serialiser emits no line break, a subscriber reading the event stream dispatches exactly one event per iteration, with the type and payload the server framed |
| `WeatherStream.SurfacesAgree` | mcp_server.py:83-109 | For the same fetch result the stream sends the very record the pull endpoint returns (each through its own serialiser); the stream sends an `error` event exactly where the pull endpoint answers the failure text or raises, and then carries that exception's text |
| `WeatherStream.FailureThenSuccess` | mcp_server.py:79-114 | A failed fetch followed by a good one gives an `error` event followed by a `get_weather` event |
| `EventStream.ParseWire` | mcp_server.py:106-113 | Frames `event: T\ndata: P\n\n` whose type is non-empty and whose parts hold no line break are read back by an event-stream client as exactly those events, in order |
| `EventStream.JoinRendered` | mcp_server.py:106-113 | Yielding each frame's text one after the other sends the concatenated wire form of the events |

## Left out

- The HTTP request helper (`make_weatherapi_request`, mcp_server.py:24-36): network I/O, its timeout and status check. Only its result is modelled, as an `Option<Json>` input (None when it failed).
- The 60-second sleeps and async scheduling: one loop iteration consumes one fetch result; the frame count over a connection's lifetime in seconds is not modelled, and neither is cancellation when the subscriber disconnects (the loop runs over a finite sequence of fetch results instead of forever).
- FastAPI and FastMCP registration, `StreamingResponse`, the uvicorn start-up and logging: framework plumbing without behaviour to verify. An exception escaping `get_weather` is modelled as `Unhandled`; the HTTP 500 the framework makes of it is not.
- `PullEndpoint.GetWeather` models the string the handler returns. Over REST the response body is the JSON encoding of that string (quoted, with its newlines and inner quotes escaped); the MCP tool passes the string on unchanged. That encoding is not modelled.
- `json.dumps`: a parameter of type `Dumps`, so its exact bytes, including the `indent=2` difference between the surfaces, are not modelled.
- `WeatherStream.StreamReadsBack`: assumes the compact serialiser emits no line break, which the model cannot show since `json.dumps` is a parameter.
- Number values are kept as literal text; their truth value is read from the digits before the exponent, so a literal that underflows to zero (such as `1e-400`) and the non-standard `NaN`/`Infinity` literals are not modelled.
- Exceptions other than the `AttributeError` of `.get` on a non-dict (for instance from serialisation or cancellation) are not modelled.
- The event-stream reader splits lines on LF only; CR and CRLF line endings, a leading byte-order mark, and the `id` and `retry` fields' effects (last event ID, reconnection time) are not modelled.
- The percent-encoding that the HTTP client applies to the URL is not modelled: the URL is the plain concatenation.
- `client_crewai.py` is not part of this model: it only configures agents, tasks and a crew of an external framework.
- The model follows the code where a reader might expect more uniform behaviour: a `location`, `current` or `condition` key that is present but null (or not an object) is not defaulted to `{}` and raises; the two surfaces' payloads differ by serialiser options; and the stream's failure reason is `Failed to fetch weather data` without the pull endpoint's final period.
