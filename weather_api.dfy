/** The decision logic of the provider client (src/utils/weatherApi.ts): the
    error message chosen for a non-OK response, the empty-geocode rule, the
    request URLs with their `units` and `exclude` parameters, the icon URL and
    the day/night icon suffix. The HTTP exchange itself is an input: a `Reply`
    holds the status, the status text, what the error body parsed to and the
    payload of a successful response. */
module WeatherApi {
  import opened Wrappers
  import opened Text
  import opened Units
  import opened WeatherTypes

  const WeatherBaseUrl := "https://api.openweathermap.org/data/2.5"
  const OneCallBaseUrl := "https://api.openweathermap.org/data/3.0/onecall"
  const GeoBaseUrl := "https://api.openweathermap.org/geo/1.0"
  const IconBaseUrl := "https://openweathermap.org/img/wn"

  /** The seven fetch functions of the client. */
  datatype Endpoint =
    | GeocodeCity | CurrentWeather | Forecast | OneCall
    | WeatherByCoords | ForecastByCoords | ReverseGeocode

  // ---------------------------------------------------------------------------
  // Error messages of non-OK responses
  // ---------------------------------------------------------------------------

  /** A parsed error body; `message` is `None` when the object has no such field. */
  datatype ErrorBody = ErrorBody(message: Option<string>)

  /** `errorData && errorData.message` when truthy; `body` is `None` when
      `res.json()` failed (and `.catch` gave `null`) or the body was `null`. */
  function BodyMessage(body: Option<ErrorBody>): (m: Option<string>)
    ensures m.Some? <==> body.Some? && body.value.message.Some? && body.value.message.value != ""
    ensures m.Some? ==> m == body.value.message && m.value != ""
  {
    if body.Some? && body.value.message.Some? && body.value.message.value != "" then
      body.value.message
    else
      None
  }

  /** The four fetch functions that give 404 and 401 their own messages. */
  predicate DistinguishesStatus(ep: Endpoint) {
    ep.GeocodeCity? || ep.CurrentWeather? || ep.Forecast? || ep.OneCall?
  }

  const UnauthorizedMessage := "Invalid API key. Please check your OpenWeather API key."
  const CityNotFoundMessage := "City not found. Please check the spelling and try again."

  function NotFoundMessage(ep: Endpoint): string
    requires DistinguishesStatus(ep)
  {
    match ep
    case GeocodeCity => "Geocoding service not found."
    case CurrentWeather => CityNotFoundMessage
    case Forecast => CityNotFoundMessage
    case OneCall => "Weather data not found for this location."
  }

  /** The message of the last rung, to which the status text is appended. */
  function FailurePrefix(ep: Endpoint): string {
    match ep
    case GeocodeCity => "Failed to geocode city: "
    case CurrentWeather => "Failed to fetch current weather: "
    case Forecast => "Failed to fetch forecast: "
    case OneCall => "Failed to fetch weather data: "
    case WeatherByCoords => "Failed to fetch weather by coordinates: "
    case ForecastByCoords => "Failed to fetch forecast by coordinates: "
    case ReverseGeocode => "Failed to reverse geocode: "
  }

  /** The message of the `Error` a fetch function throws for a non-OK response. */
  function ErrorMessage(ep: Endpoint, status: int, body: Option<ErrorBody>, statusText: string): (message: string)
    ensures message != ""
  {
    if BodyMessage(body).Some? then BodyMessage(body).value
    else if DistinguishesStatus(ep) && status == 404 then NotFoundMessage(ep)
    else if DistinguishesStatus(ep) && status == 401 then UnauthorizedMessage
    else FailurePrefix(ep) + statusText
  }

  /** A truthy body message wins over any status and status text. */
  lemma BodyMessageWins(ep: Endpoint, status: int, otherStatus: int, body: Option<ErrorBody>,
                        statusText: string, otherText: string)
    requires BodyMessage(body).Some?
    ensures ErrorMessage(ep, status, body, statusText) == BodyMessage(body).value
    ensures ErrorMessage(ep, status, body, statusText) == ErrorMessage(ep, otherStatus, body, otherText)
  {
  }

  /** A body that does not parse counts as a body without a message, and so does an empty message. */
  lemma UnparseableBodyHasNoMessage(ep: Endpoint, status: int, statusText: string)
    ensures ErrorMessage(ep, status, None, statusText)
            == ErrorMessage(ep, status, Some(ErrorBody(None)), statusText)
            == ErrorMessage(ep, status, Some(ErrorBody(Some(""))), statusText)
  {
  }

  /** Without a body message, the four name-based and One Call fetches map 404 and 401 to
      fixed messages and every other status to the prefixed status text. */
  lemma StatusLadder(ep: Endpoint, status: int, body: Option<ErrorBody>, statusText: string)
    requires BodyMessage(body).None? && DistinguishesStatus(ep)
    ensures status == 404 ==> ErrorMessage(ep, status, body, statusText) == NotFoundMessage(ep)
    ensures status == 401 ==> ErrorMessage(ep, status, body, statusText) == UnauthorizedMessage
    ensures status != 404 && status != 401 ==>
              ErrorMessage(ep, status, body, statusText) == FailurePrefix(ep) + statusText
  {
  }

  /** The coordinate-based fetches and reverse geocoding never look at the status. */
  lemma CoordinateFetchesIgnoreStatus(ep: Endpoint, status: int, otherStatus: int,
                                      body: Option<ErrorBody>, statusText: string)
    requires !DistinguishesStatus(ep)
    ensures ErrorMessage(ep, status, body, statusText) == ErrorMessage(ep, otherStatus, body, statusText)
    ensures BodyMessage(body).None? ==>
              ErrorMessage(ep, status, body, statusText) == FailurePrefix(ep) + statusText
  {
  }

  // ---------------------------------------------------------------------------
  // Outcomes of a fetch
  // ---------------------------------------------------------------------------

  /** What a fetch function sees of the HTTP exchange. */
  datatype Reply<T> = Reply(status: int, statusText: string, errorBody: Option<ErrorBody>, payload: T)

  /** `res.ok`. */
  predicate IsOk(status: int) {
    200 <= status <= 299
  }

  /** The outcome of every fetch function but `geocodeCity`: the payload, or the ladder's error. */
  function FetchOutcome<T>(ep: Endpoint, reply: Reply<T>): (r: Result<T>)
    ensures r.Ok? <==> IsOk(reply.status)
    ensures r.Ok? ==> r.value == reply.payload
    ensures r.Err? ==> r.message == ErrorMessage(ep, reply.status, reply.errorBody, reply.statusText)
  {
    if !IsOk(reply.status) then Err(ErrorMessage(ep, reply.status, reply.errorBody, reply.statusText))
    else Ok(reply.payload)
  }

  /** `geocodeCity`: an OK reply whose body is `null` or empty is a "City not found" failure. */
  function GeocodeCityOutcome(reply: Reply<Option<seq<GeocodingResult>>>): (r: Result<seq<GeocodingResult>>)
    ensures r.Ok? <==> IsOk(reply.status) && reply.payload.Some? && |reply.payload.value| > 0
    ensures r.Ok? ==> Some(r.value) == reply.payload
    ensures IsOk(reply.status) && r.Err? ==> r.message == CityNotFoundMessage
    ensures !IsOk(reply.status) ==>
              r == Err(ErrorMessage(GeocodeCity, reply.status, reply.errorBody, reply.statusText))
  {
    match FetchOutcome(GeocodeCity, reply)
    case Err(m) => Err(m)
    case Ok(data) =>
      if data.None? || |data.value| == 0 then Err(CityNotFoundMessage) else Ok(data.value)
  }

  const NoCandidates: seq<GeocodingResult> := []

  /** `reverseGeocode` passes an empty candidate list through without an error. */
  lemma ReverseGeocodeAcceptsEmpty(status: int, statusText: string, body: Option<ErrorBody>)
    requires IsOk(status)
    ensures FetchOutcome(ReverseGeocode, Reply(status, statusText, body, NoCandidates)) == Ok([])
    ensures GeocodeCityOutcome(Reply(status, statusText, body, Some([]))) == Err(CityNotFoundMessage)
  {
  }

  // ---------------------------------------------------------------------------
  // Request URLs
  // ---------------------------------------------------------------------------

  /** A call of one of the fetch functions; `None` stands for an omitted argument
      that takes its default. */
  datatype Request =
    | GeocodeCityRequest(city: string, limit: Option<int>)
    | CurrentWeatherRequest(city: string)
    | ForecastRequest(city: string)
    | OneCallRequest(coords: Coordinates, units: Option<Unit>, exclude: Option<seq<string>>)
    | WeatherByCoordsRequest(lat: real, lon: real)
    | ForecastByCoordsRequest(lat: real, lon: real)
    | ReverseGeocodeRequest(coords: Coordinates, limit: Option<int>)

  /** What the URLs are built from besides the request: the API key from the
      environment, `encodeURIComponent`, and JavaScript's rendering of a number. */
  datatype UrlContext = UrlContext(apiKey: string, encode: string -> string, number: real -> string)

  function UnitsName(u: Unit): string {
    if u == Metric then "metric" else "imperial"
  }

  /** `exclude.length > 0 ? `&exclude=${exclude.join(',')}` : ''`. */
  function ExcludeParam(exclude: seq<string>): (param: string)
    ensures param == "" <==> exclude == []
  {
    if |exclude| > 0 then "&exclude=" + Join(exclude, ',') else ""
  }

  /** The excluded sections can be read back from the parameter when none contains a comma. */
  lemma ExcludeParamRoundTrip(exclude: seq<string>)
    requires |exclude| > 0
    requires forall i :: 0 <= i < |exclude| ==> ',' !in exclude[i]
    ensures ExcludeParam(exclude)[..9] == "&exclude="
    ensures Split(ExcludeParam(exclude)[9..], ',') == exclude
  {
    var param := ExcludeParam(exclude);
    assert param[9..] == Join(exclude, ',');
    SplitJoinRoundTrip(exclude, ',');
  }

  /** The endpoint and first query parameter each fetch function addresses. */
  function EndpointPrefix(req: Request): string {
    match req
    case GeocodeCityRequest(_, _) => GeoBaseUrl + "/direct?q="
    case CurrentWeatherRequest(_) => WeatherBaseUrl + "/weather?q="
    case ForecastRequest(_) => WeatherBaseUrl + "/forecast?q="
    case OneCallRequest(_, _, _) => OneCallBaseUrl + "?lat="
    case WeatherByCoordsRequest(_, _) => WeatherBaseUrl + "/weather?lat="
    case ForecastByCoordsRequest(_, _) => WeatherBaseUrl + "/forecast?lat="
    case ReverseGeocodeRequest(_, _) => GeoBaseUrl + "/reverse?lat="
  }

  /** The query parameters a request places before its API key. */
  function LeadingParams(req: Request, ctx: UrlContext): string {
    match req
    case GeocodeCityRequest(city, limit) => ctx.encode(city) + "&limit=" + IntToString(limit.GetOr(5))
    case CurrentWeatherRequest(city) => ctx.encode(city)
    case ForecastRequest(city) => ctx.encode(city)
    case OneCallRequest(coords, _, _) => ctx.number(coords.lat) + "&lon=" + ctx.number(coords.lon)
    case WeatherByCoordsRequest(lat, lon) => ctx.number(lat) + "&lon=" + ctx.number(lon)
    case ForecastByCoordsRequest(lat, lon) => ctx.number(lat) + "&lon=" + ctx.number(lon)
    case ReverseGeocodeRequest(coords, limit) =>
      ctx.number(coords.lat) + "&lon=" + ctx.number(coords.lon) + "&limit=" + IntToString(limit.GetOr(1))
  }

  /** The query parameters a request places after its API key. */
  function TrailingParams(req: Request): string {
    match req
    case GeocodeCityRequest(_, _) => ""
    case ReverseGeocodeRequest(_, _) => ""
    case OneCallRequest(_, units, exclude) =>
      "&units=" + UnitsName(units.GetOr(Metric)) + ExcludeParam(exclude.GetOr([]))
    case _ => "&units=metric"
  }

  /** The URL each fetch function requests: its endpoint, its parameters, and the API key. */
  function RequestUrl(req: Request, ctx: UrlContext): (url: string)
    ensures EndpointPrefix(req) <= url
  {
    EndpointPrefix(req) + LeadingParams(req, ctx) + "&appid=" + ctx.apiKey + TrailingParams(req)
  }

  /** The unit system a request asks the provider for: the 2.5 weather endpoints always
      ask for metric, One Call for the caller's units (metric by default), geocoding for none. */
  function RequestedUnits(req: Request): Option<Unit> {
    match req
    case OneCallRequest(_, units, _) => Some(units.GetOr(Metric))
    case GeocodeCityRequest(_, _) => None
    case ReverseGeocodeRequest(_, _) => None
    case _ => Some(Metric)
  }

  /** Every request, geocoding included, carries the API key in an `appid` parameter. */
  lemma ApiKeyInEveryUrl(req: Request, ctx: UrlContext)
    ensures Includes(RequestUrl(req, ctx), "&appid=" + ctx.apiKey)
  {
    var before := EndpointPrefix(req) + LeadingParams(req, ctx);
    var key := "&appid=" + ctx.apiKey;
    assert RequestUrl(req, ctx) == before + key + TrailingParams(req);
    IncludesInfix(before, key, TrailingParams(req));
  }

  /** Every weather request carries its unit system in a `units` query parameter. */
  lemma UnitsParameterInUrl(req: Request, ctx: UrlContext)
    requires RequestedUnits(req).Some?
    ensures Includes(RequestUrl(req, ctx), "&units=" + UnitsName(RequestedUnits(req).value))
  {
    var before := EndpointPrefix(req) + LeadingParams(req, ctx) + "&appid=" + ctx.apiKey;
    var units := "&units=" + UnitsName(RequestedUnits(req).value);
    var after := if req.OneCallRequest? then ExcludeParam(req.exclude.GetOr([])) else "";
    assert TrailingParams(req) == units + after;
    assert RequestUrl(req, ctx) == before + units + after;
    IncludesInfix(before, units, after);
  }

  // ---------------------------------------------------------------------------
  // Icons
  // ---------------------------------------------------------------------------

  /** The icon sizes the client accepts. */
  type IconSize = n: int | n == 2 || n == 4 witness 2

  /** `getWeatherIconUrl(iconCode, size = 2)`. */
  function IconUrl(code: string, size: Option<IconSize>): string {
    IconBaseUrl + "/" + code + "@" + IntToString(size.GetOr(2)) + "x.png"
  }

  /** Reads the icon code and size back from an icon URL. */
  function ParseIconUrl(url: string): Option<(string, IconSize)> {
    var prefix := IconBaseUrl + "/";
    if |url| < |prefix| + 7 || url[..|prefix|] != prefix then None
    else
      var code := url[|prefix|..|url| - 7];
      var tail := url[|url| - 7..];
      if tail == "@2x.png" then Some((code, 2))
      else if tail == "@4x.png" then Some((code, 4))
      else None
  }

  /** The icon URL determines the icon code and the size. */
  lemma IconUrlRoundTrip(code: string, size: Option<IconSize>)
    ensures ParseIconUrl(IconUrl(code, size)) == Some((code, size.GetOr(2)))
  {
    var url := IconUrl(code, size);
    var prefix := IconBaseUrl + "/";
    var n := size.GetOr(2);
    var tail := "@" + [DigitChar(n)] + "x.png";
    assert IntToString(n) == [DigitChar(n)];
    assert url == prefix + code + tail;
    assert |tail| == 7;
    assert url[..|prefix|] == prefix;
    assert url[|prefix|..|url| - 7] == code;
    assert url[|url| - 7..] == tail;
    assert n == 2 ==> tail == "@2x.png";
    assert n == 4 ==> tail == "@4x.png";
  }

  // ---------------------------------------------------------------------------
  // Day and night
  // ---------------------------------------------------------------------------

  /** `getDayNightSuffix`: `hours` is the local hour of the timestamp (`getHours()`, 0 to 23). */
  function DayNightSuffix(hours: int): (suffix: char)
    ensures suffix == 'd' || suffix == 'n'
    ensures suffix == 'd' <==> 6 <= hours && hours < 18
  {
    if 6 <= hours < 18 then 'd' else 'n'
  }

  /** Day and night are the two halves of the clock: an hour and the hour twelve
      hours later always get different suffixes, and only 'd' and 'n' occur. */
  lemma DayAndNightAreOppositeHalves(hours: int)
    requires 0 <= hours < 24
    ensures DayNightSuffix(hours) in {'d', 'n'}
    ensures DayNightSuffix(hours) != DayNightSuffix((hours + 12) % 24)
  {
  }
}
