/** The request the server sends to the weather provider. */
module WeatherApi {
  import opened Wrappers

  const BaseUrl: string := "http://api.weatherapi.com/v1"
  const ApiKey: string := "YOUR_API_KEY"

  /** Everything before the city, and everything after it. */
  const QueryHead: string := BaseUrl + "/current.json?key=" + ApiKey + "&q="
  const QueryTail: string := "&aqi=no"

  /** The f-string both surfaces use: the city is inserted as it is. */
  function RequestUrl(city: string): string {
    BaseUrl + "/current.json?key=" + ApiKey + "&q=" + city + "&aqi=no"
  }

  /** Reads the city back out of a request URL, if the URL has that form. */
  function CityOf(url: string): (city: Option<string>)
    ensures city.Some? ==> |QueryHead| + |QueryTail| <= |url|
  {
    if |QueryHead| + |QueryTail| <= |url| &&
       url[..|QueryHead|] == QueryHead && url[|url| - |QueryTail|..] == QueryTail
    then Some(url[|QueryHead|..|url| - |QueryTail|])
    else None
  }

  /** The city can always be read back from the URL built for it. */
  lemma CityOfRequestUrl(city: string)
    ensures CityOf(RequestUrl(city)) == Some(city)
  {
  }

  /** Different cities give different requests. */
  lemma RequestUrlInjective(a: string, b: string)
    requires RequestUrl(a) == RequestUrl(b)
    ensures a == b
  {
    CityOfRequestUrl(a);
    CityOfRequestUrl(b);
  }
}
