/**
 * The fetch functions of weather_app.py (and get_5day_forecast of bot.py):
 * each tries the cache, asks the provider on a miss, stores and returns a
 * usable answer, and turns every other outcome into `{"error": ...}`.
 * The provider, the geocoder and the clock are fields of a `World` value.
 */
module Gateway {
  import opened Wrappers
  import opened JsonValues
  import opened Text
  import opened Cache

  /** A call to the outside world that a fetch may make. */
  datatype Request =
    | Geocode(city: string)                                // get_coordinates
    | CityWeather(city: string)                            // current weather by `q=<city>`
    | PointData(endpoint: Endpoint, lat: real, lon: real)  // an endpoint queried by coordinates

  /** The body of a response, as `response.json()` treats it. */
  datatype Body = Parsed(json: Json) | Unparsable(message: string)

  /** What `http_client.get_with_retries(url)` produced. */
  datatype HttpResult =
    | NoResponse                          // it returned None
    | Response(status: nat, body: Body)
    | Raised(message: string)             // it raised; `message` is str(e)

  /** The environment one handler call runs in. */
  datatype World = World(
    now: int,                           // datetime.now(), in microseconds
    geocode: string -> Option<Coord>,   // get_coordinates: the first match, or None
    upstream: Request -> HttpResult,    // the provider's answer to each request
    localDate: real -> string,          // datetime.fromtimestamp(dt).strftime('%Y-%m-%d')
    delivers: int -> bool)              // whether bot.send_message to that chat succeeds

  /** `bool(response)`: requests' Response is falsy for 4xx and 5xx statuses. */
  predicate ResponseTruthy(status: nat) {
    !(400 <= status < 600)
  }

  /** The `{"error": ...}` text for an answer that is not a usable 200. */
  function RequestFailure(ep: Endpoint, r: HttpResult): string {
    if ep == Forecast5d then "Ошибка получения прогноза"
    else "Ошибка запроса: " + (if r.Response? && ResponseTruthy(r.status) then NatToString(r.status) else "Нет ответа")
  }

  /** The text each function puts before str(e) when its `try` block raised. */
  function ExceptionPrefix(ep: Endpoint): string {
    match ep
    case Weather => "Ошибка получения погоды: "
    case Hourly => "Ошибка получения почасового прогноса: "
    case AirPollution => "Ошибка получения данных о загрязнении воздуха: "
    case Forecast5d => ""
  }

  /** str(e) for a response body of a shape the code does not expect (approximated). */
  const ShapeError: string := "unexpected response shape"

  /** `response.json()['list'][0]['components']`, with the text of what it raises otherwise. */
  function ComponentsOf(body: Json): (r: Result<Json, string>)
    ensures r.Ok? <==> Field(body, "list").Some? && Field(body, "list").value.JList?
                       && Field(body, "list").value.items != []
                       && Field(Field(body, "list").value.items[0], "components").Some?
    ensures r.Ok? ==> r.value == Field(body, "list").value.items[0].fields["components"]
  {
    match Field(body, "list")
    case None => Err(if body.JObj? then "'list'" else ShapeError)
    case Some(l) =>
      if !l.JList? then Err(ShapeError)
      else if l.items == [] then Err("list index out of range")
      else
        match Field(l.items[0], "components")
        case None => Err(if l.items[0].JObj? then "'components'" else ShapeError)
        case Some(c) => Ok(c)
  }

  /** The data a function stores from a parsed 200 body: the body, or its components for air pollution. */
  function Extract(ep: Endpoint, body: Json): Result<Json, string> {
    if ep == AirPollution then ComponentsOf(body) else Ok(body)
  }

  /** What one provider answer becomes: data to store and return, or the text of the error. */
  function Interpret(ep: Endpoint, r: HttpResult): (res: Result<Json, string>)
    ensures res.Ok? <==> r.Response? && r.status == 200 && r.body.Parsed? && Extract(ep, r.body.json).Ok?
    ensures res.Ok? && ep != AirPollution ==> res.value == r.body.json
    ensures r.Response? && r.status != 200 ==> res == Err(RequestFailure(ep, r))
    ensures r.Raised? ==> res == Err(ExceptionPrefix(ep) + r.message)
  {
    match r
    case Raised(m) => Err(ExceptionPrefix(ep) + m)
    case NoResponse => Err(RequestFailure(ep, r))
    case Response(status, body) =>
      if ResponseTruthy(status) && status == 200 then
        match body
        case Unparsable(m) => Err(ExceptionPrefix(ep) + m)
        case Parsed(j) =>
          match Extract(ep, j)
          case Ok(d) => Ok(d)
          case Err(m) => Err(ExceptionPrefix(ep) + m)
      else Err(RequestFailure(ep, r))
  }

  /** The outcome of a fetch: the value returned, the cache afterwards, the requests made. */
  datatype Fetch = Fetch(result: Json, files: map<string, CacheDoc>, requests: seq<Request>)

  /** The cache holds a truthy fresh value for this point and endpoint (`if cached:` succeeds). */
  predicate ServedFromCache(files: map<string, CacheDoc>, at: Coord, ep: Endpoint, now: int) {
    var cached := ReadEntry(Lookup(files, KeyString(at.lat, at.lon, ep)), now);
    cached.Some? && Truthy(cached.value)
  }

  /** The rule every fetch function follows, for the cache key of `at` and `ep` and the request `req`. */
  function CachedFetch(files: map<string, CacheDoc>, at: Coord, ep: Endpoint, req: Request, w: World): (f: Fetch)
    ensures f.requests == [] <==> ServedFromCache(files, at, ep, w.now)
    ensures f.requests == [] || f.requests == [req]
    ensures f.files == files || f.files == files[KeyString(at.lat, at.lon, ep) := Written(f.result, w.now)]
  {
    var cached := ReadEntry(Lookup(files, KeyString(at.lat, at.lon, ep)), w.now);
    if cached.Some? && Truthy(cached.value) then Fetch(cached.value, files, [])
    else
      match Interpret(ep, w.upstream(req))
      case Ok(data) => Fetch(data, files[KeyString(at.lat, at.lon, ep) := Written(data, w.now)], [req])
      case Err(m) => Fetch(ErrorDict(m), files, [req])
  }

  /** A truthy fresh entry is returned as it is, with no request and no write. */
  lemma {:induction false} CacheHitSkipsUpstream(files: map<string, CacheDoc>, at: Coord, ep: Endpoint, req: Request, w: World)
    requires ServedFromCache(files, at, ep, w.now)
    ensures CachedFetch(files, at, ep, req, w)
            == Fetch(files[KeyString(at.lat, at.lon, ep)].data.value, files, [])
  {
  }

  /**
   * On a miss exactly one request is made; a usable answer is stored under
   * the key and returned, anything else returns an error dict and leaves the
   * cache alone.
   */
  lemma {:induction false} CacheMissAsksUpstream(files: map<string, CacheDoc>, at: Coord, ep: Endpoint, req: Request, w: World)
    requires !ServedFromCache(files, at, ep, w.now)
    ensures var f := CachedFetch(files, at, ep, req, w);
            && f.requests == [req]
            && (Interpret(ep, w.upstream(req)).Ok? ==>
                  f.result == Interpret(ep, w.upstream(req)).value
                  && f.files == files[KeyString(at.lat, at.lon, ep) := Written(f.result, w.now)])
            && (Interpret(ep, w.upstream(req)).Err? ==>
                  f.result == ErrorDict(Interpret(ep, w.upstream(req)).error) && f.files == files)
  {
  }

  /** str(e) of the AttributeError a call of the missing `http_client.get_with_retries` raises. */
  const MissingRetries: string := "module 'http_client' has no attribute 'get_with_retries'"

  /**
   * With the http_client.py that ships beside the code, which defines `get`,
   * `post` and `get_simple` but no `get_with_retries`, every request raises
   * AttributeError inside the `try`: a miss answers with that error and
   * nothing is ever cached.
   */
  lemma {:induction false} ShippedClientNeverCaches(files: map<string, CacheDoc>, at: Coord, ep: Endpoint, req: Request, w: World)
    requires forall r :: w.upstream(r) == Raised(MissingRetries)
    ensures var f := CachedFetch(files, at, ep, req, w);
            && f.files == files
            && (f.requests == [req] ==> f.result == ErrorDict(ExceptionPrefix(ep) + MissingRetries))
  {
    assert w.upstream(req) == Raised(MissingRetries);
  }

  /**
   * The shared rule as written: the cache read sits before the `try`, so a
   * file that LoadAsWritten raises on makes the whole call raise (None here).
   * Everywhere else it agrees with the corrected rule.
   */
  function CachedFetchAsWritten(files: map<string, CacheDoc>, at: Coord, ep: Endpoint, req: Request, w: World): (f: Option<Fetch>)
    ensures f.None? <==> LoadAsWritten(Lookup(files, KeyString(at.lat, at.lon, ep)), w.now).Raises?
    ensures f.Some? ==> f.value == CachedFetch(files, at, ep, req, w)
  {
    match LoadAsWritten(Lookup(files, KeyString(at.lat, at.lon, ep)), w.now)
    case Raises => None
    case Hit(d) =>
      if Truthy(d) then Some(Fetch(d, files, []))
      else Some(CachedFetch(files, at, ep, req, w))
    case Absent => Some(CachedFetch(files, at, ep, req, w))
  }

  /**
   * A fetch that raises on a corrupt file leaves the file in place, so every
   * later fetch of the same key raises too, whatever the time or the request.
   */
  lemma {:induction false} CorruptEntryBlocksEveryFetch(files: map<string, CacheDoc>, at: Coord, ep: Endpoint, req: Request, w: World,
                                                        at': Coord, req': Request, w': World)
    requires CachedFetchAsWritten(files, at, ep, req, w).None?
    requires SameRounding(at.lat, at'.lat) && SameRounding(at.lon, at'.lon)
    ensures CachedFetchAsWritten(files, at', ep, req', w').None?
  {
    KeyStringMatches(at.lat, at.lon, ep, at'.lat, at'.lon, ep);
    CorruptStampEscapes(w.now, w'.now);
  }

  /** An empty cached dict is falsy, so it counts as a miss. */
  lemma {:induction false} EmptyCachedDictIsMiss(files: map<string, CacheDoc>, at: Coord, ep: Endpoint, req: Request, w: World, t: int)
    requires Lookup(files, KeyString(at.lat, at.lon, ep)) == Some(Written(JObj(map[]), t))
    ensures CachedFetch(files, at, ep, req, w).requests == [req]
  {
    assert !Truthy(JObj(map[]));
  }

  /** An entry ten minutes old or older no longer serves: the provider is asked again. */
  lemma {:induction false} StaleEntryRefetched(files: map<string, CacheDoc>, at: Coord, ep: Endpoint, req: Request, w: World, data: Json, t: int)
    requires Lookup(files, KeyString(at.lat, at.lon, ep)) == Some(Written(data, t))
    requires w.now - t >= CacheDuration
    ensures CachedFetch(files, at, ep, req, w).requests == [req]
  {
    WrittenEntryLifetime(data, t, w.now);
  }

  /**
   * A fetch that stored a truthy answer is followed, for any point with the
   * same rounded key and any later call within ten minutes, by a cache hit
   * returning the same value with no request.
   */
  lemma RepeatWithinTtlServedFromCache(files: map<string, CacheDoc>, at: Coord, ep: Endpoint, req: Request, w: World,
                                       at': Coord, req': Request, w': World)
    requires CachedFetch(files, at, ep, req, w).requests == [req]
    requires Interpret(ep, w.upstream(req)).Ok? && Truthy(Interpret(ep, w.upstream(req)).value)
    requires SameRounding(at.lat, at'.lat) && SameRounding(at.lon, at'.lon)
    requires w'.now - w.now < CacheDuration
    ensures var f := CachedFetch(files, at, ep, req, w);
            CachedFetch(f.files, at', ep, req', w') == Fetch(f.result, f.files, [])
  {
    var f := CachedFetch(files, at, ep, req, w);
    var k := KeyString(at.lat, at.lon, ep);
    KeyStringMatches(at.lat, at.lon, ep, at'.lat, at'.lon, ep);
    assert KeyString(at'.lat, at'.lon, ep) == k;
    CacheMissAsksUpstream(files, at, ep, req, w);
    WrittenEntryLifetime(f.result, w.now, w'.now);
    assert ServedFromCache(f.files, at', ep, w'.now);
  }

  /** get_weather_by_coordinates */
  function WeatherByCoordinates(files: map<string, CacheDoc>, lat: real, lon: real, w: World): (f: Fetch)
    ensures f.requests == [] <==> ServedFromCache(files, Coord(lat, lon), Weather, w.now)
    ensures f.requests == [] || f.requests == [PointData(Weather, lat, lon)]
    ensures f.files == files || f.files == files[KeyString(lat, lon, Weather) := Written(f.result, w.now)]
  {
    CachedFetch(files, Coord(lat, lon), Weather, PointData(Weather, lat, lon), w)
  }

  /** get_hourly_weather */
  function HourlyWeather(files: map<string, CacheDoc>, lat: real, lon: real, w: World): (f: Fetch)
    ensures f.requests == [] <==> ServedFromCache(files, Coord(lat, lon), Hourly, w.now)
    ensures f.requests == [] || f.requests == [PointData(Hourly, lat, lon)]
    ensures f.files == files || f.files == files[KeyString(lat, lon, Hourly) := Written(f.result, w.now)]
  {
    CachedFetch(files, Coord(lat, lon), Hourly, PointData(Hourly, lat, lon), w)
  }

  /** get_air_pollution */
  function AirPollutionData(files: map<string, CacheDoc>, lat: real, lon: real, w: World): (f: Fetch)
    ensures f.requests == [] <==> ServedFromCache(files, Coord(lat, lon), AirPollution, w.now)
    ensures f.requests == [] || f.requests == [PointData(AirPollution, lat, lon)]
    ensures f.files == files || f.files == files[KeyString(lat, lon, AirPollution) := Written(f.result, w.now)]
  {
    CachedFetch(files, Coord(lat, lon), AirPollution, PointData(AirPollution, lat, lon), w)
  }

  /** get_5day_forecast */
  function FiveDayForecast(files: map<string, CacheDoc>, lat: real, lon: real, w: World): (f: Fetch)
    ensures f.requests == [] <==> ServedFromCache(files, Coord(lat, lon), Forecast5d, w.now)
    ensures f.requests == [] || f.requests == [PointData(Forecast5d, lat, lon)]
    ensures f.files == files || f.files == files[KeyString(lat, lon, Forecast5d) := Written(f.result, w.now)]
  {
    CachedFetch(files, Coord(lat, lon), Forecast5d, PointData(Forecast5d, lat, lon), w)
  }

  const CityNotFound: string := "Город не найден"
  const NoQuery: string := "Укажите город или координаты"

  /**
   * get_weather_by_city: geocode first (always a request); no match is the
   * "city not found" error; otherwise the shared rule, keyed by the geocoded
   * point but asking the provider by name.
   */
  function WeatherByCity(files: map<string, CacheDoc>, city: string, w: World): (f: Fetch)
    ensures f.requests != [] && f.requests[0] == Geocode(city)
    ensures w.geocode(city).None? ==> f == Fetch(ErrorDict(CityNotFound), files, [Geocode(city)])
    ensures w.geocode(city).Some? ==>
              var c := w.geocode(city).value;
              var k := KeyString(c.lat, c.lon, Weather);
              var answer := Interpret(Weather, w.upstream(CityWeather(city)));
              && (f.requests == [Geocode(city)] || f.requests == [Geocode(city), CityWeather(city)])
              && (f.requests == [Geocode(city)] <==> ServedFromCache(files, c, Weather, w.now))
              && (ServedFromCache(files, c, Weather, w.now) ==> f.result == files[k].data.value && f.files == files)
              && (!ServedFromCache(files, c, Weather, w.now) && answer.Ok? ==>
                    f.result == answer.value && f.files == files[k := Written(answer.value, w.now)])
              && (!ServedFromCache(files, c, Weather, w.now) && answer.Err? ==>
                    f.result == ErrorDict(answer.error) && f.files == files)
  {
    match w.geocode(city)
    case None => Fetch(ErrorDict(CityNotFound), files, [Geocode(city)])
    case Some(c) =>
      var f := CachedFetch(files, c, Weather, CityWeather(city), w);
      Fetch(f.result, f.files, [Geocode(city)] + f.requests)
  }

  /** Python truthiness of the optional arguments of get_current_weather. */
  predicate CityGiven(city: Option<string>) { city.Some? && city.value != "" }

  predicate PointGiven(lat: Option<real>, lon: Option<real>) {
    lat.Some? && lat.value != 0.0 && lon.Some? && lon.value != 0.0
  }

  /**
   * get_current_weather: a non-empty city wins; coordinates are used only
   * when both are non-zero; otherwise the "give a city or coordinates" error
   * with no request.
   */
  function CurrentWeather(files: map<string, CacheDoc>, city: Option<string>, lat: Option<real>, lon: Option<real>, w: World): (f: Fetch)
    ensures CityGiven(city) ==> f == WeatherByCity(files, city.value, w)
    ensures CityGiven(city) ==> f.requests != [] && f.requests[0] == Geocode(city.value)
    ensures !CityGiven(city) && PointGiven(lat, lon) ==> f == WeatherByCoordinates(files, lat.value, lon.value, w)
    ensures !CityGiven(city) && PointGiven(lat, lon) ==>
              f.requests == [] || f.requests == [PointData(Weather, lat.value, lon.value)]
    ensures !CityGiven(city) && !PointGiven(lat, lon) ==> f == Fetch(ErrorDict(NoQuery), files, [])
  {
    if CityGiven(city) then WeatherByCity(files, city.value, w)
    else if PointGiven(lat, lon) then WeatherByCoordinates(files, lat.value, lon.value, w)
    else Fetch(ErrorDict(NoQuery), files, [])
  }

  /** A point on the equator or the prime meridian counts as "no coordinates". */
  lemma ZeroCoordinateCountsAsMissing(files: map<string, CacheDoc>, lon: real, w: World)
    ensures CurrentWeather(files, None, Some(0.0), Some(lon), w) == Fetch(ErrorDict(NoQuery), files, [])
  {
  }

  /** The shared rule, run against the cache directory. */
  method FetchThrough(cache: CacheDir, at: Coord, ep: Endpoint, req: Request, w: World)
    returns (result: Json, requests: seq<Request>)
    modifies cache
    ensures Fetch(result, cache.files, requests) == CachedFetch(old(cache.files), at, ep, req, w)
  {
    var cached := cache.Load(at.lat, at.lon, ep, w.now);
    if cached.Some? && Truthy(cached.value) {
      return cached.value, [];
    }
    requests := [req];
    match Interpret(ep, w.upstream(req)) {
      case Ok(data) =>
        cache.Save(data, at.lat, at.lon, ep, w.now);
        result := data;
      case Err(m) =>
        result := ErrorDict(m);
    }
  }

  method GetWeatherByCoordinates(cache: CacheDir, lat: real, lon: real, w: World)
    returns (result: Json, requests: seq<Request>)
    modifies cache
    ensures Fetch(result, cache.files, requests) == WeatherByCoordinates(old(cache.files), lat, lon, w)
  {
    result, requests := FetchThrough(cache, Coord(lat, lon), Weather, PointData(Weather, lat, lon), w);
  }

  method GetHourlyWeather(cache: CacheDir, lat: real, lon: real, w: World)
    returns (result: Json, requests: seq<Request>)
    modifies cache
    ensures Fetch(result, cache.files, requests) == HourlyWeather(old(cache.files), lat, lon, w)
  {
    result, requests := FetchThrough(cache, Coord(lat, lon), Hourly, PointData(Hourly, lat, lon), w);
  }

  method GetAirPollution(cache: CacheDir, lat: real, lon: real, w: World)
    returns (result: Json, requests: seq<Request>)
    modifies cache
    ensures Fetch(result, cache.files, requests) == AirPollutionData(old(cache.files), lat, lon, w)
  {
    result, requests := FetchThrough(cache, Coord(lat, lon), AirPollution, PointData(AirPollution, lat, lon), w);
  }

  method Get5DayForecast(cache: CacheDir, lat: real, lon: real, w: World)
    returns (result: Json, requests: seq<Request>)
    modifies cache
    ensures Fetch(result, cache.files, requests) == FiveDayForecast(old(cache.files), lat, lon, w)
  {
    result, requests := FetchThrough(cache, Coord(lat, lon), Forecast5d, PointData(Forecast5d, lat, lon), w);
  }

  method GetWeatherByCity(cache: CacheDir, city: string, w: World)
    returns (result: Json, requests: seq<Request>)
    modifies cache
    ensures Fetch(result, cache.files, requests) == WeatherByCity(old(cache.files), city, w)
  {
    match w.geocode(city) {
      case None =>
        result, requests := ErrorDict(CityNotFound), [Geocode(city)];
      case Some(c) =>
        var rest;
        result, rest := FetchThrough(cache, c, Weather, CityWeather(city), w);
        requests := [Geocode(city)] + rest;
    }
  }

  method GetCurrentWeather(cache: CacheDir, city: Option<string>, lat: Option<real>, lon: Option<real>, w: World)
    returns (result: Json, requests: seq<Request>)
    modifies cache
    ensures Fetch(result, cache.files, requests) == CurrentWeather(old(cache.files), city, lat, lon, w)
  {
    if CityGiven(city) {
      result, requests := GetWeatherByCity(cache, city.value, w);
    } else if PointGiven(lat, lon) {
      result, requests := GetWeatherByCoordinates(cache, lat.value, lon.value, w);
    } else {
      result, requests := ErrorDict(NoQuery), [];
    }
  }
}
