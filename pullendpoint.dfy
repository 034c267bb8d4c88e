/** `GET /weather/{city}`: one fetch, one reply. */
module PullEndpoint {
  import opened Wrappers
  import opened PyJson
  import opened Weather
  import opened WeatherApi

  const FailedMessage: string := "Failed to fetch weather data."

  /** The handler's outcome: a text body, or an exception it lets escape. */
  datatype Reply = Text(body: string) | Unhandled(error: PyError)

  /** `get_weather(city)`. `fetch` stands for the request helper: what it
      returns for a URL (None when the request failed). `dumpsIndented` is
      `json.dumps(..., indent=2)`. */
  function GetWeather(city: string, fetch: string -> Option<Json>, dumpsIndented: Dumps): (r: Reply)
    // a falsy fetch result (None, {}, ...) gives exactly the failure text
    ensures !TruthyResult(fetch(RequestUrl(city))) ==> r == Text(FailedMessage)
    // otherwise: the serialised table record on well-shaped input ...
    ensures TruthyResult(fetch(RequestUrl(city))) && WellShaped(fetch(RequestUrl(city)).value) ==>
              r == Text(dumpsIndented(TableRecord(fetch(RequestUrl(city)).value)))
    // ... and the uncaught AttributeError on any other
    ensures TruthyResult(fetch(RequestUrl(city))) && !WellShaped(fetch(RequestUrl(city)).value) ==>
              r == Unhandled(NoAttributeGet(Offender(fetch(RequestUrl(city)).value)))
  {
    var data := fetch(RequestUrl(city));
    if !TruthyResult(data) then Text(FailedMessage)
    else
      match Normalize(data.value)
      case Success(w) => Text(dumpsIndented(Entries(w)))
      case Failure(e) => Unhandled(e)
  }
}
