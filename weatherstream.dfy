/** `GET /sse?city=...`: the publishing loop of `sse_weather_stream`. Each
    iteration fetches once and yields exactly one frame; the loop itself never
    stops, so here it runs for as many iterations as fetch results are given. */
module WeatherStream {
  import opened Wrappers
  import opened PyJson
  import opened Weather
  import opened WeatherApi
  import opened EventStream
  import PullEndpoint

  const DefaultCity: string := "Jakarta"
  const GetWeatherKind: string := "get_weather"
  const ErrorKind: string := "error"
  const FetchFailedReason: string := "Failed to fetch weather data"

  /** `{'error': reason}`. */
  function ErrorPayload(reason: string): Dict {
    [("error", Str(reason))]
  }

  /** The event one iteration sends for the fetch result `data`. */
  function FrameFor(data: Option<Json>, dumps: Dumps): (e: Event)
    ensures e.kind == GetWeatherKind || e.kind == ErrorKind
    ensures e.kind == GetWeatherKind <==> TruthyResult(data) && WellShaped(data.value)
    ensures e.kind == GetWeatherKind ==> e.data == dumps(TableRecord(data.value))
    ensures !TruthyResult(data) ==> e.data == dumps(ErrorPayload(FetchFailedReason))
    ensures TruthyResult(data) && !WellShaped(data.value) ==>
              e.data == dumps(ErrorPayload(ErrorText(NoAttributeGet(Offender(data.value)))))
  {
    if !TruthyResult(data) then Event(ErrorKind, dumps(ErrorPayload(FetchFailedReason)))
    else
      match Normalize(data.value)
      case Success(w) => Event(GetWeatherKind, dumps(Entries(w)))
      case Failure(e) => Event(ErrorKind, dumps(ErrorPayload(ErrorText(e))))
  }

  /** The events of a run, one per fetch result. */
  function FramesFor(outcomes: seq<Option<Json>>, dumps: Dumps): (events: seq<Event>)
    ensures |events| == |outcomes|
  {
    seq(|outcomes|, i requires 0 <= i < |outcomes| => FrameFor(outcomes[i], dumps))
  }

  /** The body of the `try` block for one fetch result, with the stream's own
      copy of the record literal. `:-` is an exception leaving the block. */
  method Attempt(data: Option<Json>, dumps: Dumps) returns (r: Result<string, PyError>)
    // the copy agrees with the pull endpoint's normalisation ...
    ensures r.Success? ==> r.value == Render(FrameFor(data, dumps))
    // ... and raises exactly where it raises
    ensures r.Failure? <==> TruthyResult(data) && !WellShaped(data.value)
    ensures r.Failure? ==> r.error == NoAttributeGet(Offender(data.value))
  {
    if !TruthyResult(data) {
      return Success(Render(Event(ErrorKind, dumps(ErrorPayload(FetchFailedReason)))));
    }
    var location :- GetOr(data.value, "location", EmptyObject);
    var current := DictGet(data.value.fields, "current", EmptyObject);
    var condition :- GetOr(current, "condition", EmptyObject);
    var city :- GetOr(location, "name", Null);
    var conditionText :- GetOr(condition, "text", Null);
    var result := [
      ("city", city),
      ("region", DictGet(location.fields, "region", Null)),
      ("country", DictGet(location.fields, "country", Null)),
      ("local_time", DictGet(location.fields, "localtime", Null)),
      ("latitude", DictGet(location.fields, "lat", Null)),
      ("longitude", DictGet(location.fields, "lon", Null)),
      ("temperature_c", DictGet(current.fields, "temp_c", Null)),
      ("feelslike_c", DictGet(current.fields, "feelslike_c", Null)),
      ("humidity", DictGet(current.fields, "humidity", Null)),
      ("wind_kph", DictGet(current.fields, "wind_kph", Null)),
      ("wind_dir", DictGet(current.fields, "wind_dir", Null)),
      ("pressure_mb", DictGet(current.fields, "pressure_mb", Null)),
      ("uv_index", DictGet(current.fields, "uv", Null)),
      ("visibility_km", DictGet(current.fields, "vis_km", Null)),
      ("condition", conditionText),
      ("condition_icon", DictGet(condition.fields, "icon", Null))
    ];
    r := Success(Render(Event(GetWeatherKind, dumps(result))));
  }

  /** Runs the loop over the fetch results `outcomes`, one per iteration,
      returning the URL each iteration requested and the text it yielded. */
  method Publish(city: string := DefaultCity, outcomes: seq<Option<Json>>, dumps: Dumps)
    returns (requests: seq<string>, sent: seq<string>)
    ensures |requests| == |outcomes| && |sent| == |outcomes|
    // every iteration requests the URL the pull endpoint requests
    ensures forall i :: 0 <= i < |outcomes| ==> requests[i] == RequestUrl(city)
    ensures forall i :: 0 <= i < |outcomes| ==> sent[i] == Render(FrameFor(outcomes[i], dumps))
    ensures Join(sent) == Wire(FramesFor(outcomes, dumps))
  {
    requests, sent := [], [];
    var i := 0;
    while i < |outcomes|
      invariant 0 <= i <= |outcomes|
      invariant |requests| == i && |sent| == i
      invariant forall j :: 0 <= j < i ==> requests[j] == RequestUrl(city)
      invariant forall j :: 0 <= j < i ==> sent[j] == Render(FrameFor(outcomes[j], dumps))
    {
      // the stream's own copy of the request f-string
      var url := BaseUrl + "/current.json?key=" + ApiKey + "&q=" + city + "&aqi=no";
      var data := outcomes[i];  // what the request for `url` returned this time
      var attempt := Attempt(data, dumps);
      var frame := if attempt.Success? then attempt.value
                   else Render(Event(ErrorKind, dumps(ErrorPayload(ErrorText(attempt.error)))));
      requests := requests + [url];
      sent := sent + [frame];
      i := i + 1;
    }
    JoinRendered(sent, FramesFor(outcomes, dumps));
  }

  // ---------------------------------------------------------------------------
  // Properties of the stream.

  /** Whatever the fetch results, a subscriber reads back one event per
      iteration, in order, each a `get_weather` or an `error` event, provided
      the serialiser emits no line break (compact `json.dumps` never does). */
  lemma StreamReadsBack(outcomes: seq<Option<Json>>, dumps: Dumps)
    requires forall p :: LineFree(dumps(p))
    ensures Parse(Wire(FramesFor(outcomes, dumps))) == FramesFor(outcomes, dumps)
    ensures |Parse(Wire(FramesFor(outcomes, dumps)))| == |outcomes|
  {
    var events := FramesFor(outcomes, dumps);
    forall i | 0 <= i < |events|
      ensures Framable(events[i])
    {
      assert events[i] == FrameFor(outcomes[i], dumps);
    }
    ParseWire(events);
  }

  /** Surface parity: for the same fetch result the stream sends the very
      record the pull endpoint returns (each through its own serialiser), and
      an error event exactly where the pull endpoint answers the failure text
      or raises, the event carrying the exception's text. */
  lemma SurfacesAgree(city: string, fetch: string -> Option<Json>, dumps: Dumps, dumpsIndented: Dumps)
    ensures var data := fetch(RequestUrl(city));
            var reply := PullEndpoint.GetWeather(city, fetch, dumpsIndented);
            var frame := FrameFor(data, dumps);
            (!TruthyResult(data) ==>
               reply == PullEndpoint.Text(PullEndpoint.FailedMessage) &&
               frame == Event(ErrorKind, dumps(ErrorPayload(FetchFailedReason)))) &&
            (TruthyResult(data) && WellShaped(data.value) ==>
               reply == PullEndpoint.Text(dumpsIndented(TableRecord(data.value))) &&
               frame == Event(GetWeatherKind, dumps(TableRecord(data.value)))) &&
            (TruthyResult(data) && !WellShaped(data.value) ==>
               reply.Unhandled? && frame == Event(ErrorKind, dumps(ErrorPayload(ErrorText(reply.error)))))
  {
  }

  /** A failed fetch does not end the stream: an `error` event is followed by
      the `get_weather` event of the next, successful, iteration. */
  lemma FailureThenSuccess(dumps: Dumps)
    ensures var events := FramesFor([None, Some(JakartaResponse)], dumps);
            |events| == 2 && events[0].kind == ErrorKind && events[1].kind == GetWeatherKind
  {
    JakartaExample();
  }
}
