/**
 * The Telegram front end of bot.py: which handler a message or a button
 * press reaches, what each handler changes in `user_data`, in the pending
 * next-step handlers and in the cache, which requests it makes and what it
 * answers. Texts are reduced to what they show; sending is left out.
 */
module Bot {
  import opened Wrappers
  import opened JsonValues
  import opened Text
  import opened Cache
  import opened Gateway
  import AirQuality
  import opened Sessions
  import opened Forecast
  import opened Compare

  /** The labels of the main keyboard that have a text handler. */
  const WeatherNowLabel: string := "\U{1F321}\U{FE0F} Погода сейчас"
  const ForecastLabel: string := "\U{1F4C5} Прогноз на 5 дней"
  const NotificationsLabel: string := "\U{1F514} Уведомления"
  const CompareLabel: string := "\U{1F30D} Сравнить города"
  const ExtendedLabel: string := "\U{1F4CA} Расширенные данные"

  /** An incoming message: text, a shared location, or any other content. */
  datatype Message = TextMessage(text: string) | LocationMessage(at: Coord) | OtherMessage

  /** A handler waiting for the user's next message (register_next_step_handler). */
  datatype Step =
    | CityForWeather   // get_weather_now
    | TwoCities        // compare_cities
    | CityForExtended  // extended_by_city

  /** The fixed notices. */
  datatype Notice =
    | SendLocationFirst   // the forecast button without a stored location
    | LocationNotFound    // a day or "back" button without a stored location
    | DataNotFound        // a day button whose date has no items
    | NeedLocationAlert   // the "by location" button without a stored location
    | TwoCitiesExpected   // the comparison input does not have exactly two parts
    | CityUnknown         // the city of the extended view does not geocode

  /** What a handler answers, without its text layout. */
  datatype Reply =
    | Greeting                                   // the welcome text and main keyboard
    | Prompt(step: Step)                         // a question whose answer goes to `step`
    | WeatherShown(weather: Json)
    | ErrorShown(error: Json)                    // "❌ " + the error of a fetch
    | Note(notice: Notice)
    | ForecastMenu(days: seq<string>)            // one button per date
    | DayShown(date: string, items: seq<Item>)
    | NotificationsStatus(on: bool)              // the menu with the opposite button
    | NotificationsSet(on: bool)                 // the alert after a toggle
    | ComparisonShown(first: Json, second: Json, difference: real)
    | CityFailed(city: string, error: Json)      // "❌ <city>: <error>"
    | ExtendedShown(title: Json, weather: Json, air: Option<AirQuality.AirReport>)
    | SearchChoice                               // "by location" or "by city"
    | Failed                                     // an exception the handler catches and reports
    | Crashed                                    // an exception escapes the handler: nothing is sent

  /** A handler's answer, the cache afterwards and the requests made, in order. */
  datatype Outcome = Outcome(reply: Reply, files: map<string, CacheDoc>, requests: seq<Request>)

  /** The pending handlers of a chat, as the library keeps them. */
  function PendingOf(pending: map<UserId, seq<Step>>, u: UserId): seq<Step> {
    if u in pending then pending[u] else []
  }

  /** `commands=['start']`: "/start", alone or followed by a blank or "@<bot name>". */
  predicate IsStart(text: string) {
    |text| >= 6 && text[..6] == "/start" && (|text| == 6 || IsSpace(text[6]) || text[6] == '@')
  }

  /**
   * "/start" followed by more text is the command only when a blank or "@"
   * ends the word: "/start@bot" and "/start now" are, "/started" is not.
   */
  lemma StartCommandShapes(rest: string)
    ensures IsStart("/start" + rest) <==> rest == [] || IsSpace(rest[0]) || rest[0] == '@'
  {
    assert ("/start" + rest)[..6] == "/start";
    assert |rest| > 0 ==> ("/start" + rest)[6] == rest[0];
  }

  /** The message handlers, in the order they are registered. */
  datatype MessageRoute = StartCommand | LocationShared | WeatherNowButton | ForecastButton
                        | NotificationsButton | CompareButton | ExtendedButton | Unhandled

  function RouteMessage(m: Message): (r: MessageRoute)
    ensures r == LocationShared <==> m.LocationMessage?
    ensures r == StartCommand <==> m.TextMessage? && IsStart(m.text)
    ensures m == TextMessage(WeatherNowLabel) ==> r == WeatherNowButton
    ensures m == TextMessage(ForecastLabel) ==> r == ForecastButton
    ensures m == TextMessage(NotificationsLabel) ==> r == NotificationsButton
    ensures m == TextMessage(CompareLabel) ==> r == CompareButton
    ensures m == TextMessage(ExtendedLabel) ==> r == ExtendedButton
    ensures r == Unhandled <==>
              m.OtherMessage? ||
              (m.TextMessage? && !IsStart(m.text) &&
               m.text !in {WeatherNowLabel, ForecastLabel, NotificationsLabel, CompareLabel, ExtendedLabel})
  {
    match m
    case LocationMessage(_) => LocationShared
    case OtherMessage => Unhandled
    case TextMessage(t) =>
      if IsStart(t) then StartCommand
      else if t == WeatherNowLabel then WeatherNowButton
      else if t == ForecastLabel then ForecastButton
      else if t == NotificationsLabel then NotificationsButton
      else if t == CompareLabel then CompareButton
      else if t == ExtendedLabel then ExtendedButton
      else Unhandled
  }

  /** The callback handlers, in the order they are registered. */
  datatype CallbackRoute = DayButton(date: string) | BackButton | NotifButton(on: bool)
                         | ByLocationButton | ByCityButton | NoCallbackHandler

  function RouteCallback(data: string): (r: CallbackRoute)
    ensures r.DayButton? <==> |data| >= 4 && data[..4] == "day_"
    ensures data == "back_to_forecast" ==> r == BackButton
    ensures data == "notif_on" ==> r == NotifButton(true)
    ensures data == "notif_off" ==> r == NotifButton(false)
    ensures data == "ext_geo" ==> r == ByLocationButton
    ensures data == "ext_city" ==> r == ByCityButton
    ensures r == NoCallbackHandler <==>
              !(|data| >= 4 && data[..4] == "day_") &&
              data !in {"back_to_forecast", "notif_on", "notif_off", "ext_geo", "ext_city"}
  {
    assert |data| >= 4 && data[..4] == "day_" ==> data[0] == 'd';
    if |data| >= 4 && data[..4] == "day_" then DayButton(DateOfTag(data))
    else if data == "back_to_forecast" then BackButton
    else if data == "notif_on" then NotifButton(true)
    else if data == "notif_off" then NotifButton(false)
    else if data == "ext_geo" then ByLocationButton
    else if data == "ext_city" then ByCityButton
    else NoCallbackHandler
  }

  /** A day button's data is routed back to the day it was made for. */
  lemma DayButtonRoutesToItsDay(d: string)
    requires '_' !in d
    ensures RouteCallback(DayTag(d)) == DayButton(d)
  {
    DayTagRoundTrip(d);
  }

  /**
   * A fetched weather payload: its error, or the weather itself. The test
   * `"error" in weather` and the read `weather['error']` sit outside any
   * `try`, so a payload that is not a dict either raises at the test (a
   * number, a boolean, null) or passes it only to raise at the read (a list
   * holding "error", a string containing it).
   */
  function WeatherReply(weather: Json): (r: Reply)
    ensures HasError(weather) ==> r == ErrorShown(ErrorOf(weather))
    ensures ErrorTest(weather) == Some(false) ==> r == WeatherShown(weather)
    ensures r == Crashed <==> ErrorTest(weather) != Some(false) && !HasError(weather)
  {
    match ErrorTest(weather)
    case Some(false) => WeatherShown(weather)
    case Some(true) => if HasError(weather) then ErrorShown(ErrorOf(weather)) else Crashed
    case None => Crashed
  }

  /** show_forecast_menu on a payload; a payload it cannot walk makes it raise. */
  function ForecastMenuReply(forecast: Json, dateOf: real -> string): (r: Reply)
    ensures r.ForecastMenu? ==> |r.days| <= 5
    ensures Field(forecast, "list").None? ==> r == Crashed
    ensures r.ForecastMenu? || r == Crashed
    ensures r.ForecastMenu? <==> DecodeForecast(forecast).Some? && MenuShowable(DecodeForecast(forecast).value, dateOf)
    ensures r.ForecastMenu? ==> r.days == DayButtons(DecodeForecast(forecast).value, dateOf)
  {
    match DecodeForecast(forecast)
    case None => Crashed
    case Some(items) => if MenuShowable(items, dateOf) then ForecastMenu(DayButtons(items, dateOf)) else Crashed
  }

  /** The location handler's weather: fetched by the shared coordinates. */
  function LocationWeather(files: map<string, CacheDoc>, at: Coord, w: World): (o: Outcome)
    ensures (at.lat == 0.0 || at.lon == 0.0) ==> o == Outcome(ErrorShown(JStr(NoQuery)), files, [])
    ensures at.lat != 0.0 && at.lon != 0.0 ==> o.requests == [] || o.requests == [PointData(Weather, at.lat, at.lon)]
    ensures at.lat != 0.0 && at.lon != 0.0 ==>
              var f := WeatherByCoordinates(files, at.lat, at.lon, w);
              o == Outcome(WeatherReply(f.result), f.files, f.requests)
  {
    var f := CurrentWeather(files, None, Some(at.lat), Some(at.lon), w);
    Outcome(WeatherReply(f.result), f.files, f.requests)
  }

  /** get_weather_now: the stripped text is the city. */
  function WeatherNowStep(files: map<string, CacheDoc>, m: Message, w: World): (o: Outcome)
    ensures !m.TextMessage? ==> o == Outcome(Crashed, files, [])
    ensures m.TextMessage? && Strip(m.text) == "" ==> o == Outcome(ErrorShown(JStr(NoQuery)), files, [])
    ensures m.TextMessage? && Strip(m.text) != "" ==> o.requests != [] && o.requests[0] == Geocode(Strip(m.text))
    ensures m.TextMessage? && Strip(m.text) != "" ==>
              var f := WeatherByCity(files, Strip(m.text), w);
              o == Outcome(WeatherReply(f.result), f.files, f.requests)
  {
    if !m.TextMessage? then Outcome(Crashed, files, [])
    else
      var f := CurrentWeather(files, Some(Strip(m.text)), None, None, w);
      Outcome(WeatherReply(f.result), f.files, f.requests)
  }

  function ComparisonReply(c: Comparison): Reply {
    match c
    case Compared(a, b, d) => ComparisonShown(a, b, d)
    case FormatFailed => Failed
  }

  /**
   * compare_cities: a wrong part count is reported before any request;
   * otherwise both cities are fetched, then the first city's error wins
   * over the second's.
   */
  function CompareStep(files: map<string, CacheDoc>, m: Message, w: World): (o: Outcome)
    ensures !m.TextMessage? ==> o == Outcome(Failed, files, [])
    ensures m.TextMessage? && ParseCities(m.text).None? ==> o == Outcome(Note(TwoCitiesExpected), files, [])
    ensures m.TextMessage? && ParseCities(m.text).Some? ==>
              var (a, b) := ParseCities(m.text).value;
              var f1 := CurrentWeather(files, Some(a), None, None, w);
              var f2 := CurrentWeather(f1.files, Some(b), None, None, w);
              && o.requests == f1.requests + f2.requests
              && o.files == f2.files
              && (HasError(f1.result) ==> o.reply == CityFailed(a, ErrorOf(f1.result)))
              && (ErrorTest(f1.result) == Some(false) && HasError(f2.result) ==> o.reply == CityFailed(b, ErrorOf(f2.result)))
              && (ErrorTest(f1.result) == Some(false) && ErrorTest(f2.result) == Some(false) ==>
                    o.reply == ComparisonReply(FormatComparison(f1.result, f2.result)))
              && (ErrorTest(f1.result) != Some(false) && !HasError(f1.result) ==> o.reply == Failed)
              && (ErrorTest(f1.result) == Some(false) && ErrorTest(f2.result) != Some(false) && !HasError(f2.result) ==>
                    o.reply == Failed)
              && (o.reply.ComparisonShown? ==> o.reply.difference >= 0.0 && o.reply.first == f1.result)
  {
    if !m.TextMessage? then Outcome(Failed, files, [])
    else match ParseCities(m.text)
      case None => Outcome(Note(TwoCitiesExpected), files, [])
      case Some((a, b)) =>
        var f1 := CurrentWeather(files, Some(a), None, None, w);
        var f2 := CurrentWeather(f1.files, Some(b), None, None, w);
        var reply :=
          if ErrorTest(f1.result) != Some(false) then
            (if HasError(f1.result) then CityFailed(a, ErrorOf(f1.result)) else Failed)
          else if ErrorTest(f2.result) != Some(false) then
            (if HasError(f2.result) then CityFailed(b, ErrorOf(f2.result)) else Failed)
          else ComparisonReply(FormatComparison(f1.result, f2.result));
        Outcome(reply, f2.files, f1.requests + f2.requests)
  }

  /** `weather['sys'][key]` as `fromtimestamp` accepts it. */
  function SunTime(weather: Json, key: string): Option<real> {
    match At(weather, [Key("sys"), Key(key)])
    case None => None
    case Some(v) => Number(v)
  }

  /** The subscripts show_extended_data reads inside its `try`. */
  predicate Displayable(weather: Json) {
    && At(weather, [Key("main"), Key("temp")]).Some?
    && At(weather, [Key("main"), Key("feels_like")]).Some?
    && At(weather, [Key("main"), Key("humidity")]).Some?
    && At(weather, [Key("main"), Key("pressure")]).Some?
    && At(weather, [Key("wind"), Key("speed")]).Some?
    && At(weather, [Key("clouds"), Key("all")]).Some?
    && At(weather, [Key("weather"), Index(0), Key("description")]).Some?
    && At(weather, [Key("weather"), Index(0), Key("description")]).value.JStr?
    && SunTime(weather, "sunrise").Some?
    && SunTime(weather, "sunset").Some?
  }

  /**
   * The air section: left out when the air data is a dict carrying "error";
   * analysed (extended) when it is any other dict; None where the analysis
   * raises, which every non-dict value makes it do.
   */
  function AirSection(air: Json): (r: Option<Option<AirQuality.AirReport>>)
    ensures r == Some(None) <==> HasError(air)
    ensures r.Some? && r.value.Some? ==> r.value.value.Report? && 1 <= r.value.value.overall <= 5
    ensures !air.JObj? ==> r.None?
    ensures air.JObj? && "error" !in air.fields ==>
              var report := AirQuality.Analysis(air.fields, true);
              r == (if report.Report? then Some(Some(report)) else None)
  {
    if !air.JObj? then None
    else if "error" in air.fields then Some(None)
    else
      var report := AirQuality.Analysis(air.fields, true);
      if report.Report? then Some(Some(report)) else None
  }

  /** The heading: `city if city else weather['name']`. */
  function Title(weather: Json, city: Option<string>): Option<Json> {
    if city.Some? && city.value != "" then Some(JStr(city.value)) else At(weather, [Key("name")])
  }

  /** What show_extended_data answers for the two payloads it fetched. */
  function ExtendedReply(weather: Json, air: Json, city: Option<string>): (r: Reply)
    ensures HasError(weather) ==> r == ErrorShown(ErrorOf(weather))
    ensures ErrorTest(weather) != Some(false) && !HasError(weather) ==> r == Crashed
    ensures r.ExtendedShown? ==> r.weather == weather && (r.air.None? <==> HasError(air))
    ensures r.ExtendedShown? && city.Some? && city.value != "" ==> r.title == JStr(city.value)
    ensures ErrorTest(weather) == Some(false) ==>
              && (r.ExtendedShown? <==> Title(weather, city).Some? && Displayable(weather) && AirSection(air).Some?)
              && (!r.ExtendedShown? ==> r == Failed)
    ensures r.ExtendedShown? ==> r.title == Title(weather, city).value && r.air == AirSection(air).value
  {
    if ErrorTest(weather) != Some(false) then
      if HasError(weather) then ErrorShown(ErrorOf(weather)) else Crashed
    else match (Title(weather, city), AirSection(air))
      case (Some(t), Some(section)) => if Displayable(weather) then ExtendedShown(t, weather, section) else Failed
      case _ => Failed
  }

  /** show_extended_data: the weather, then the air data, both through the cache. */
  function ExtendedView(files: map<string, CacheDoc>, at: Coord, city: Option<string>, w: World): (o: Outcome)
    ensures var f1 := WeatherByCoordinates(files, at.lat, at.lon, w);
            var f2 := AirPollutionData(f1.files, at.lat, at.lon, w);
            && o.files == f2.files
            && o.requests == f1.requests + f2.requests
            && (HasError(f1.result) ==> o.reply == ErrorShown(ErrorOf(f1.result)))
            && o.reply == ExtendedReply(f1.result, f2.result, city)
  {
    var f1 := WeatherByCoordinates(files, at.lat, at.lon, w);
    var f2 := AirPollutionData(f1.files, at.lat, at.lon, w);
    Outcome(ExtendedReply(f1.result, f2.result, city), f2.files, f1.requests + f2.requests)
  }

  /** extended_by_city: the stripped text is geocoded first; no match is a notice. */
  function ExtendedCityStep(files: map<string, CacheDoc>, m: Message, w: World): (o: Outcome)
    ensures !m.TextMessage? ==> o == Outcome(Crashed, files, [])
    ensures m.TextMessage? ==> o.requests != [] && o.requests[0] == Geocode(Strip(m.text))
    ensures m.TextMessage? && w.geocode(Strip(m.text)).None? ==>
              o == Outcome(Note(CityUnknown), files, [Geocode(Strip(m.text))])
    ensures m.TextMessage? && w.geocode(Strip(m.text)).Some? ==>
              var e := ExtendedView(files, w.geocode(Strip(m.text)).value, Some(Strip(m.text)), w);
              o == Outcome(e.reply, e.files, [Geocode(Strip(m.text))] + e.requests)
  {
    if !m.TextMessage? then Outcome(Crashed, files, [])
    else
      var city := Strip(m.text);
      match w.geocode(city)
      case None => Outcome(Note(CityUnknown), files, [Geocode(city)])
      case Some(c) =>
        var o := ExtendedView(files, c, Some(city), w);
        Outcome(o.reply, o.files, [Geocode(city)] + o.requests)
  }

  /** The handler a pending step stands for. */
  function StepOutcome(files: map<string, CacheDoc>, s: Step, m: Message, w: World): Outcome {
    match s
    case CityForWeather => WeatherNowStep(files, m, w)
    case TwoCities => CompareStep(files, m, w)
    case CityForExtended => ExtendedCityStep(files, m, w)
  }

  /** The pending handlers of a chat, all run on the same message, one after the other. */
  datatype Run = Run(replies: seq<Reply>, files: map<string, CacheDoc>, requests: seq<Request>)

  function RunSteps(files: map<string, CacheDoc>, steps: seq<Step>, m: Message, w: World): (r: Run)
    ensures |r.replies| == |steps|
  {
    if steps == [] then Run([], files, [])
    else
      var prev := RunSteps(files, steps[..|steps| - 1], m, w);
      var o := StepOutcome(prev.files, steps[|steps| - 1], m, w);
      Run(prev.replies + [o.reply], o.files, prev.requests + o.requests)
  }

  /** One pending handler: its outcome alone. */
  lemma RunStepsSingle(files: map<string, CacheDoc>, s: Step, m: Message, w: World)
    ensures var o := StepOutcome(files, s, m, w);
            RunSteps(files, [s], m, w) == Run([o.reply], o.files, o.requests)
  {
    assert [s][..0] == [];
  }

  /** The last pending handler runs on the cache the earlier ones left. */
  lemma RunStepsSnoc(files: map<string, CacheDoc>, init: seq<Step>, s: Step, m: Message, w: World)
    ensures var prev := RunSteps(files, init, m, w);
            var o := StepOutcome(prev.files, s, m, w);
            RunSteps(files, init + [s], m, w) == Run(prev.replies + [o.reply], o.files, prev.requests + o.requests)
  {
    assert (init + [s])[..|init|] == init;
  }

  /** Running `s1 + s2` as a property of `s2`. */
  predicate RunsInSequence(files: map<string, CacheDoc>, s1: seq<Step>, s2: seq<Step>, m: Message, w: World) {
    var r1 := RunSteps(files, s1, m, w);
    var r2 := RunSteps(r1.files, s2, m, w);
    RunSteps(files, s1 + s2, m, w) == Run(r1.replies + r2.replies, r2.files, r1.requests + r2.requests)
  }

  /** Appending one outcome to two runs in sequence is appending it to the second. */
  lemma RunThenOutcome(r1: Run, r2: Run, o: Outcome)
    ensures Run((r1.replies + r2.replies) + [o.reply], o.files, (r1.requests + r2.requests) + o.requests)
         == Run(r1.replies + (r2.replies + [o.reply]), o.files, r1.requests + (r2.requests + o.requests))
  {
  }

  /** One more handler after `s2` keeps the runs in sequence. */
  lemma RunsInSequenceSnoc(files: map<string, CacheDoc>, s1: seq<Step>, init: seq<Step>, s: Step, m: Message, w: World)
    requires RunsInSequence(files, s1, init, m, w)
    ensures RunsInSequence(files, s1, init + [s], m, w)
  {
    assert s1 + (init + [s]) == (s1 + init) + [s];
    var r1 := RunSteps(files, s1, m, w);
    var ri := RunSteps(r1.files, init, m, w);
    var o := StepOutcome(ri.files, s, m, w);
    RunStepsSnoc(files, s1 + init, s, m, w);
    RunStepsSnoc(r1.files, init, s, m, w);
    RunThenOutcome(r1, ri, o);
  }

  /**
   * Running `s1 + s2` runs `s2` on the cache `s1` left behind, with the
   * replies and the requests of the two runs one after the other.
   */
  lemma {:induction false} RunStepsAppend(files: map<string, CacheDoc>, s1: seq<Step>, s2: seq<Step>, m: Message, w: World)
    ensures var r1 := RunSteps(files, s1, m, w);
            var r2 := RunSteps(r1.files, s2, m, w);
            RunSteps(files, s1 + s2, m, w) == Run(r1.replies + r2.replies, r2.files, r1.requests + r2.requests)
    decreases |s2|
  {
    if s2 == [] {
      assert s1 + s2 == s1;
    } else {
      var init := s2[..|s2| - 1];
      assert s2 == init + [s2[|s2| - 1]];
      RunStepsAppend(files, s1, init, m, w);
      RunsInSequenceSnoc(files, s1, init, s2[|s2| - 1], m, w);
    }
  }

  /** forecast_handler: a stored location is needed before anything is fetched. */
  function ForecastView(users: Users, files: map<string, CacheDoc>, u: UserId, w: World): (o: Outcome)
    ensures !HasLocation(users, u) ==> o == Outcome(Note(SendLocationFirst), files, [])
    ensures HasLocation(users, u) ==>
              var at := users[u].location.value;
              var f := FiveDayForecast(files, at.lat, at.lon, w);
              && o.files == f.files && o.requests == f.requests
              && (o.requests == [] || o.requests == [PointData(Forecast5d, at.lat, at.lon)])
              && (HasError(f.result) ==> o.reply == ErrorShown(ErrorOf(f.result)))
              && (!HasError(f.result) ==> o.reply == ForecastMenuReply(f.result, w.localDate))
    ensures o.reply.ForecastMenu? ==> |o.reply.days| <= 5
  {
    if !HasLocation(users, u) then Outcome(Note(SendLocationFirst), files, [])
    else
      var at := users[u].location.value;
      var f := FiveDayForecast(files, at.lat, at.lon, w);
      var reply := if HasError(f.result) then ErrorShown(ErrorOf(f.result)) else ForecastMenuReply(f.result, w.localDate);
      Outcome(reply, f.files, f.requests)
  }

  /**
   * show_day_details for the date read from the button: a stored location is
   * needed; the forecast is not checked for an error, so an error payload
   * (no 'list') makes the handler raise.
   */
  function DayPage(users: Users, files: map<string, CacheDoc>, u: UserId, date: string, w: World): (o: Outcome)
    ensures !HasLocation(users, u) ==> o == Outcome(Note(LocationNotFound), files, [])
    ensures HasLocation(users, u) ==>
              var at := users[u].location.value;
              var f := FiveDayForecast(files, at.lat, at.lon, w);
              && o.files == f.files && o.requests == f.requests
              && (Field(f.result, "list").None? ==> o.reply == Crashed)
              && (DecodeForecast(f.result).None? ==> o.reply == Crashed)
              && (DecodeForecast(f.result).Some? ==>
                    var v := DayDetails(DecodeForecast(f.result).value, w.localDate, date);
                    && (o.reply == Note(DataNotFound) <==> v.NoData?)
                    && (o.reply == Crashed <==> v.DetailRaises?)
                    && (v.Shown? ==> o.reply == DayShown(date, v.items))
                    && (o.reply.DayShown? ==> v == Shown(o.reply.items)))
    ensures o.reply.DayShown? ==>
              && o.reply.date == date && 0 < |o.reply.items| <= 8
              && forall x | x in o.reply.items :: w.localDate(x.dt) == date
  {
    if !HasLocation(users, u) then Outcome(Note(LocationNotFound), files, [])
    else
      var at := users[u].location.value;
      var f := FiveDayForecast(files, at.lat, at.lon, w);
      var reply :=
        match DecodeForecast(f.result)
        case None => Crashed
        case Some(items) =>
          match DayDetails(items, w.localDate, date)
          case NoData => Note(DataNotFound)
          case DetailRaises => Crashed
          case Shown(xs) => DayShown(date, xs);
      Outcome(reply, f.files, f.requests)
  }

  /** back_to_forecast: like the forecast button, but without the error check. */
  function BackView(users: Users, files: map<string, CacheDoc>, u: UserId, w: World): (o: Outcome)
    ensures !HasLocation(users, u) ==> o == Outcome(Note(LocationNotFound), files, [])
    ensures HasLocation(users, u) ==>
              var at := users[u].location.value;
              var f := FiveDayForecast(files, at.lat, at.lon, w);
              && o.files == f.files && o.requests == f.requests
              && (Field(f.result, "list").None? ==> o.reply == Crashed)
              && o.reply == ForecastMenuReply(f.result, w.localDate)
  {
    if !HasLocation(users, u) then Outcome(Note(LocationNotFound), files, [])
    else
      var at := users[u].location.value;
      var f := FiveDayForecast(files, at.lat, at.lon, w);
      Outcome(ForecastMenuReply(f.result, w.localDate), f.files, f.requests)
  }

  /** extended_by_geo: a stored location is needed before anything is fetched. */
  function ByLocationView(users: Users, files: map<string, CacheDoc>, u: UserId, w: World): (o: Outcome)
    ensures !HasLocation(users, u) ==> o == Outcome(Note(NeedLocationAlert), files, [])
    ensures HasLocation(users, u) ==> o == ExtendedView(files, users[u].location.value, None, w)
  {
    if !HasLocation(users, u) then Outcome(Note(NeedLocationAlert), files, [])
    else ExtendedView(files, users[u].location.value, None, w)
  }

  /** The elements of `xs` that lie in `s`, in their order in `xs`. */
  function Keep(xs: seq<UserId>, s: set<UserId>): (r: seq<UserId>)
    ensures |r| <= |xs|
    ensures forall u :: u in r <==> u in xs && u in s
  {
    if xs == [] then []
    else
      var x := xs[|xs| - 1];
      assert forall v :: v in xs <==> v in xs[..|xs| - 1] || v == x;
      Keep(xs[..|xs| - 1], s) + (if x in s then [x] else [])
  }

  /** What one notification cycle did: whom it fetched for, whom it reached, the cache and the requests. */
  datatype CycleResult = CycleResult(targeted: seq<UserId>, sent: seq<UserId>, files: map<string, CacheDoc>, requests: seq<Request>)

  /**
   * One pass of weather_notification_worker over the users in `order` (the
   * dict's order): a subscriber's weather is fetched by their location; it is
   * sent when it carries no error; a failed send is passed over.
   */
  function Cycle(files: map<string, CacheDoc>, users: Users, order: seq<UserId>, w: World): (r: CycleResult)
    ensures r.targeted == Keep(order, Subscribers(users))
    ensures forall u :: u in r.targeted <==> u in order && u in Subscribers(users)
    ensures forall u | u in r.sent :: u in r.targeted && w.delivers(u)
  {
    if order == [] then CycleResult([], [], files, [])
    else
      var prev := Cycle(files, users, order[..|order| - 1], w);
      var u := order[|order| - 1];
      assert forall v :: v in order <==> v in order[..|order| - 1] || v == u;
      if u in Subscribers(users) then
        var at := users[u].location.value;
        var f := CurrentWeather(prev.files, None, Some(at.lat), Some(at.lon), w);
        var delivered := ErrorTest(f.result) == Some(false) && w.delivers(u);
        CycleResult(prev.targeted + [u], prev.sent + (if delivered then [u] else []), f.files, prev.requests + f.requests)
      else prev
  }

  /** Whether sends succeed changes neither whom a cycle fetches for nor what it requests. */
  lemma {:induction false} DeliveryDoesNotSteerCycle(files: map<string, CacheDoc>, users: Users, order: seq<UserId>, w: World, delivers: int -> bool)
    ensures var r := Cycle(files, users, order, w);
            var r' := Cycle(files, users, order, w.(delivers := delivers));
            r.targeted == r'.targeted && r.requests == r'.requests && r.files == r'.files
  {
    if order != [] {
      DeliveryDoesNotSteerCycle(files, users, order[..|order| - 1], w, delivers);
      var u := order[|order| - 1];
      var prev := Cycle(files, users, order[..|order| - 1], w);
      if u in Subscribers(users) {
        var at := users[u].location.value;
        CurrentWeatherIgnoresDelivery(prev.files, at, w, delivers);
      }
    }
  }

  /** The cycle over one more user, in terms of the cycle before it. */
  lemma CycleStep(files: map<string, CacheDoc>, users: Users, order: seq<UserId>, i: nat, w: World)
    requires i < |order|
    ensures var prev := Cycle(files, users, order[..i], w);
            var u := order[i];
            Cycle(files, users, order[..i + 1], w) ==
              if u in Subscribers(users) then
                var at := users[u].location.value;
                var f := CurrentWeather(prev.files, None, Some(at.lat), Some(at.lon), w);
                var delivered := ErrorTest(f.result) == Some(false) && w.delivers(u);
                CycleResult(prev.targeted + [u], prev.sent + (if delivered then [u] else []), f.files, prev.requests + f.requests)
              else prev
  {
    assert order[..i + 1][..i] == order[..i];
  }

  /** A cycle over a prefix of `order` has sent to a prefix of those the whole cycle sends to. */
  lemma {:induction false} CycleSentGrows(files: map<string, CacheDoc>, users: Users, order: seq<UserId>, j: nat, w: World)
    requires j <= |order|
    ensures Cycle(files, users, order[..j], w).sent <= Cycle(files, users, order, w).sent
    decreases |order|
  {
    if j < |order| {
      var init := order[..|order| - 1];
      assert init[..j] == order[..j];
      CycleSentGrows(files, users, init, j, w);
    } else {
      assert order[..j] == order;
    }
  }

  /**
   * A subscriber whose weather, fetched with the cache the earlier users
   * left, passes the error test, and whose chat accepts the message, is
   * among those the cycle sends to.
   */
  lemma {:induction false} CycleSends(files: map<string, CacheDoc>, users: Users, order: seq<UserId>, i: nat, w: World)
    requires i < |order| && order[i] in Subscribers(users)
    ensures var prev := Cycle(files, users, order[..i], w);
            var at := users[order[i]].location.value;
            var f := CurrentWeather(prev.files, None, Some(at.lat), Some(at.lon), w);
            ErrorTest(f.result) == Some(false) && w.delivers(order[i]) ==> order[i] in Cycle(files, users, order, w).sent
  {
    CycleStep(files, users, order, i, w);
    CycleSentGrows(files, users, order, i + 1, w);
    var s := Cycle(files, users, order[..i + 1], w).sent;
    var prev := Cycle(files, users, order[..i], w);
    var at := users[order[i]].location.value;
    var f := CurrentWeather(prev.files, None, Some(at.lat), Some(at.lon), w);
    if ErrorTest(f.result) == Some(false) && w.delivers(order[i]) {
      assert s[|s| - 1] == order[i];
    }
  }

  /** Whoever a cycle sends to beyond a prefix of `order` comes after that prefix. */
  lemma {:induction false} CycleSentLater(files: map<string, CacheDoc>, users: Users, order: seq<UserId>, j: nat, w: World)
    requires j <= |order|
    ensures forall u | u in Cycle(files, users, order, w).sent :: u in Cycle(files, users, order[..j], w).sent || u in order[j..]
    decreases |order|
  {
    if j < |order| {
      var init := order[..|order| - 1];
      assert init[..j] == order[..j];
      assert order[j..] == init[j..] + [order[|order| - 1]];
      CycleSentLater(files, users, init, j, w);
      CycleStep(files, users, order, |order| - 1, w);
      assert order[..|order|] == order;
    } else {
      assert order[..j] == order;
    }
  }

  /**
   * With each user listed once, as the keys of a dict are, a subscriber is
   * sent to exactly when their weather passes the error test and their chat
   * accepts the message.
   */
  lemma CycleSendsExactly(files: map<string, CacheDoc>, users: Users, order: seq<UserId>, i: nat, w: World)
    requires i < |order| && order[i] in Subscribers(users)
    requires forall a, b | 0 <= a < b < |order| :: order[a] != order[b]
    ensures var prev := Cycle(files, users, order[..i], w);
            var at := users[order[i]].location.value;
            var f := CurrentWeather(prev.files, None, Some(at.lat), Some(at.lon), w);
            order[i] in Cycle(files, users, order, w).sent <==> ErrorTest(f.result) == Some(false) && w.delivers(order[i])
  {
    CycleSends(files, users, order, i, w);
    CycleStep(files, users, order, i, w);
    CycleSentLater(files, users, order, i + 1, w);
    assert forall k | i + 1 <= k < |order| :: order[k] != order[i];
    assert order[i] !in order[i + 1..];
    assert forall k | 0 <= k < i :: order[k] != order[i];
    assert order[i] !in order[..i];
  }

  lemma CurrentWeatherIgnoresDelivery(files: map<string, CacheDoc>, at: Coord, w: World, delivers: int -> bool)
    ensures CurrentWeather(files, None, Some(at.lat), Some(at.lon), w.(delivers := delivers))
         == CurrentWeather(files, None, Some(at.lat), Some(at.lon), w)
  {
  }

  /** When `order` lists every user, a cycle fetches for exactly the subscribers. */
  lemma CycleReachesSubscribers(files: map<string, CacheDoc>, users: Users, order: seq<UserId>, w: World)
    requires forall u :: u in order <==> u in users
    ensures forall u :: u in Cycle(files, users, order, w).targeted <==> u in Subscribers(users)
  {
  }

  class BotState {
    /** user_data */
    var users: Users
    /** the content of user_data.json */
    var persisted: Users
    /** the next-step handlers registered per chat */
    var pending: map<UserId, seq<Step>>
    /** the .cache directory */
    const cache: CacheDir

    /** Start-up: the users loaded from the file, nothing pending. */
    constructor (loaded: Users, cache: CacheDir)
      ensures users == loaded && persisted == loaded && pending == map[] && this.cache == cache
    {
      users := loaded;
      persisted := loaded;
      pending := map[];
      this.cache := cache;
    }

    /** send_welcome: a record for a new user, saved; a known user is left as is. */
    method SendWelcome(u: UserId) returns (reply: Reply)
      modifies this
      ensures users == Welcome(old(users), u)
      ensures persisted == if u in old(users) then old(persisted) else users
      ensures pending == old(pending)
      ensures reply == Greeting
    {
      if u !in users {
        users := users[u := NewSession];
        persisted := users;
      }
      reply := Greeting;
    }

    /** handle_location: the user's location is replaced and saved, then the weather there is shown. */
    method HandleLocation(u: UserId, at: Coord, w: World) returns (reply: Reply, requests: seq<Request>)
      modifies this, cache
      ensures users == SetLocation(old(users), u, at) && persisted == users
      ensures pending == old(pending)
      ensures Outcome(reply, cache.files, requests) == LocationWeather(old(cache.files), at, w)
    {
      users := SetLocation(users, u, at);
      persisted := users;
      var weather;
      weather, requests := GetCurrentWeather(cache, None, Some(at.lat), Some(at.lon), w);
      reply := WeatherReply(weather);
    }

    /** A question whose answer the next message of the chat goes to; earlier pending handlers stay. */
    method Ask(u: UserId, step: Step) returns (reply: Reply)
      modifies this
      ensures pending == old(pending)[u := PendingOf(old(pending), u) + [step]]
      ensures users == old(users) && persisted == old(persisted)
      ensures reply == Prompt(step)
    {
      pending := pending[u := PendingOf(pending, u) + [step]];
      reply := Prompt(step);
    }

    method GetWeatherNow(m: Message, w: World) returns (reply: Reply, requests: seq<Request>)
      modifies cache
      ensures Outcome(reply, cache.files, requests) == WeatherNowStep(old(cache.files), m, w)
    {
      if !m.TextMessage? {
        return Crashed, [];
      }
      var weather;
      weather, requests := GetCurrentWeather(cache, Some(Strip(m.text)), None, None, w);
      reply := WeatherReply(weather);
    }

    method CompareCities(m: Message, w: World) returns (reply: Reply, requests: seq<Request>)
      modifies cache
      ensures Outcome(reply, cache.files, requests) == CompareStep(old(cache.files), m, w)
    {
      if !m.TextMessage? {
        return Failed, [];
      }
      var cities := ParseCities(m.text);
      if cities.None? {
        return Note(TwoCitiesExpected), [];
      }
      var (a, b) := cities.value;
      var w1, r1 := GetCurrentWeather(cache, Some(a), None, None, w);
      var w2, r2 := GetCurrentWeather(cache, Some(b), None, None, w);
      requests := r1 + r2;
      if ErrorTest(w1) != Some(false) {
        reply := if HasError(w1) then CityFailed(a, ErrorOf(w1)) else Failed;
      } else if ErrorTest(w2) != Some(false) {
        reply := if HasError(w2) then CityFailed(b, ErrorOf(w2)) else Failed;
      } else {
        reply := ComparisonReply(FormatComparison(w1, w2));
      }
    }

    method ShowExtendedData(at: Coord, city: Option<string>, w: World) returns (reply: Reply, requests: seq<Request>)
      modifies cache
      ensures Outcome(reply, cache.files, requests) == ExtendedView(old(cache.files), at, city, w)
    {
      var weather, r1 := GetWeatherByCoordinates(cache, at.lat, at.lon, w);
      var air, r2 := GetAirPollution(cache, at.lat, at.lon, w);
      requests := r1 + r2;
      if ErrorTest(weather) != Some(false) {
        reply := if HasError(weather) then ErrorShown(ErrorOf(weather)) else Crashed;
        return;
      }
      var title := Title(weather, city);
      if title.None? || !Displayable(weather) {
        return Failed, requests;
      }
      if !air.JObj? {
        return Failed, requests;
      }
      if "error" in air.fields {
        return ExtendedShown(title.value, weather, None), requests;
      }
      var report := AirQuality.Analyze(air.fields, true);
      if report.Report? {
        reply := ExtendedShown(title.value, weather, Some(report));
      } else {
        reply := Failed;
      }
    }

    method ExtendedByCity(m: Message, w: World) returns (reply: Reply, requests: seq<Request>)
      modifies cache
      ensures Outcome(reply, cache.files, requests) == ExtendedCityStep(old(cache.files), m, w)
    {
      if !m.TextMessage? {
        return Crashed, [];
      }
      var city := Strip(m.text);
      var coords := w.geocode(city);
      if coords.None? {
        return Note(CityUnknown), [Geocode(city)];
      }
      var rest;
      reply, rest := ShowExtendedData(coords.value, Some(city), w);
      requests := [Geocode(city)] + rest;
    }

    /** Runs the handlers taken off a chat, in registration order, on one message. */
    method RunPending(steps: seq<Step>, m: Message, w: World) returns (replies: seq<Reply>, requests: seq<Request>)
      modifies cache
      ensures Run(replies, cache.files, requests) == RunSteps(old(cache.files), steps, m, w)
    {
      replies, requests := [], [];
      for i := 0 to |steps|
        invariant Run(replies, cache.files, requests) == RunSteps(old(cache.files), steps[..i], m, w)
      {
        assert steps[..i + 1][..i] == steps[..i];
        var reply, more;
        match steps[i] {
          case CityForWeather => reply, more := GetWeatherNow(m, w);
          case TwoCities => reply, more := CompareCities(m, w);
          case CityForExtended => reply, more := ExtendedByCity(m, w);
        }
        replies, requests := replies + [reply], requests + more;
      }
      assert steps[..|steps|] == steps;
    }

    method ShowForecast(u: UserId, w: World) returns (reply: Reply, requests: seq<Request>)
      modifies cache
      ensures Outcome(reply, cache.files, requests) == ForecastView(users, old(cache.files), u, w)
    {
      if !HasLocation(users, u) {
        return Note(SendLocationFirst), [];
      }
      var at := users[u].location.value;
      var forecast;
      forecast, requests := Get5DayForecast(cache, at.lat, at.lon, w);
      if HasError(forecast) {
        reply := ErrorShown(ErrorOf(forecast));
      } else {
        reply := ForecastMenuReply(forecast, w.localDate);
      }
    }

    method ShowDayDetails(u: UserId, date: string, w: World) returns (reply: Reply, requests: seq<Request>)
      modifies cache
      ensures Outcome(reply, cache.files, requests) == DayPage(users, old(cache.files), u, date, w)
    {
      if !HasLocation(users, u) {
        return Note(LocationNotFound), [];
      }
      var at := users[u].location.value;
      var forecast;
      forecast, requests := Get5DayForecast(cache, at.lat, at.lon, w);
      var items := DecodeForecast(forecast);
      if items.None? {
        return Crashed, requests;
      }
      match DayDetails(items.value, w.localDate, date) {
        case NoData => reply := Note(DataNotFound);
        case DetailRaises => reply := Crashed;
        case Shown(xs) => reply := DayShown(date, xs);
      }
    }

    method BackToForecast(u: UserId, w: World) returns (reply: Reply, requests: seq<Request>)
      modifies cache
      ensures Outcome(reply, cache.files, requests) == BackView(users, old(cache.files), u, w)
    {
      if !HasLocation(users, u) {
        return Note(LocationNotFound), [];
      }
      var at := users[u].location.value;
      var forecast;
      forecast, requests := Get5DayForecast(cache, at.lat, at.lon, w);
      reply := ForecastMenuReply(forecast, w.localDate);
    }

    method ExtendedByLocation(u: UserId, w: World) returns (reply: Reply, requests: seq<Request>)
      modifies cache
      ensures Outcome(reply, cache.files, requests) == ByLocationView(users, old(cache.files), u, w)
    {
      if !HasLocation(users, u) {
        return Note(NeedLocationAlert), [];
      }
      reply, requests := ShowExtendedData(users[u].location.value, None, w);
    }

    /** toggle_notifications: the flag is set as the button says and saved. */
    method ToggleNotifications(u: UserId, on: bool) returns (reply: Reply)
      modifies this
      ensures users == SetNotifications(old(users), u, on) && persisted == users
      ensures pending == old(pending)
      ensures reply == NotificationsSet(on)
    {
      users := SetNotifications(users, u, on);
      persisted := users;
      reply := NotificationsSet(on);
    }

    /**
     * A message: the chat's pending handlers, when there are any, are taken
     * off and all run on it, and no other handler sees it; otherwise the
     * first matching message handler runs.
     */
    method OnMessage(u: UserId, m: Message, w: World) returns (replies: seq<Reply>, requests: seq<Request>)
      modifies this, cache
      ensures var steps := PendingOf(old(pending), u);
              steps != [] ==>
                && pending == old(pending) - {u}
                && users == old(users) && persisted == old(persisted)
                && Run(replies, cache.files, requests) == RunSteps(old(cache.files), steps, m, w)
      ensures PendingOf(old(pending), u) == [] ==>
                match RouteMessage(m)
                case StartCommand =>
                  users == Welcome(old(users), u) && pending == old(pending) - {u}
                  && persisted == (if u in old(users) then old(persisted) else users)
                  && replies == [Greeting] && requests == [] && cache.files == old(cache.files)
                case LocationShared =>
                  users == SetLocation(old(users), u, m.at) && persisted == users && pending == old(pending) - {u}
                  && |replies| == 1
                  && Outcome(replies[0], cache.files, requests) == LocationWeather(old(cache.files), m.at, w)
                case WeatherNowButton =>
                  pending == old(pending)[u := [CityForWeather]] && users == old(users) && persisted == old(persisted)
                  && replies == [Prompt(CityForWeather)] && requests == [] && cache.files == old(cache.files)
                case ForecastButton =>
                  pending == old(pending) - {u} && users == old(users) && persisted == old(persisted) && |replies| == 1
                  && Outcome(replies[0], cache.files, requests) == ForecastView(old(users), old(cache.files), u, w)
                case NotificationsButton =>
                  pending == old(pending) - {u} && users == old(users) && persisted == old(persisted)
                  && replies == [NotificationsStatus(NotificationsOn(old(users), u))] && requests == []
                  && cache.files == old(cache.files)
                case CompareButton =>
                  pending == old(pending)[u := [TwoCities]] && users == old(users) && persisted == old(persisted)
                  && replies == [Prompt(TwoCities)] && requests == [] && cache.files == old(cache.files)
                case ExtendedButton =>
                  pending == old(pending) - {u} && users == old(users) && persisted == old(persisted)
                  && replies == [SearchChoice] && requests == [] && cache.files == old(cache.files)
                case Unhandled =>
                  pending == old(pending) - {u} && users == old(users) && persisted == old(persisted)
                  && replies == [] && requests == [] && cache.files == old(cache.files)
    {
      var steps := PendingOf(pending, u);
      pending := pending - {u};
      if steps != [] {
        replies, requests := RunPending(steps, m, w);
        return;
      }
      requests := [];
      match RouteMessage(m) {
        case StartCommand =>
          var r := SendWelcome(u);
          replies := [r];
        case LocationShared =>
          var r;
          r, requests := HandleLocation(u, m.at, w);
          replies := [r];
        case WeatherNowButton =>
          ghost var before := pending;
          var r := Ask(u, CityForWeather);
          replies := [r];
          assert PendingOf(before, u) + [CityForWeather] == [CityForWeather];
          assert pending == old(pending)[u := [CityForWeather]];
        case ForecastButton =>
          var r;
          r, requests := ShowForecast(u, w);
          replies := [r];
        case NotificationsButton =>
          replies := [NotificationsStatus(NotificationsOn(users, u))];
        case CompareButton =>
          ghost var before := pending;
          var r := Ask(u, TwoCities);
          replies := [r];
          assert PendingOf(before, u) + [TwoCities] == [TwoCities];
          assert pending == old(pending)[u := [TwoCities]];
        case ExtendedButton =>
          replies := [SearchChoice];
        case Unhandled =>
          replies := [];
      }
    }

    /** A button press: the first matching callback handler runs; pending handlers are not touched. */
    method OnCallback(u: UserId, data: string, w: World) returns (replies: seq<Reply>, requests: seq<Request>)
      modifies this, cache
      ensures match RouteCallback(data)
              case DayButton(date) =>
                unchanged(this) && |replies| == 1
                && Outcome(replies[0], cache.files, requests) == DayPage(users, old(cache.files), u, date, w)
              case BackButton =>
                unchanged(this) && |replies| == 1
                && Outcome(replies[0], cache.files, requests) == BackView(users, old(cache.files), u, w)
              case NotifButton(on) =>
                users == SetNotifications(old(users), u, on) && persisted == users && pending == old(pending)
                && replies == [NotificationsSet(on)] && requests == [] && cache.files == old(cache.files)
              case ByLocationButton =>
                unchanged(this) && |replies| == 1
                && Outcome(replies[0], cache.files, requests) == ByLocationView(users, old(cache.files), u, w)
              case ByCityButton =>
                pending == old(pending)[u := PendingOf(old(pending), u) + [CityForExtended]]
                && users == old(users) && persisted == old(persisted)
                && replies == [Prompt(CityForExtended)] && requests == [] && cache.files == old(cache.files)
              case NoCallbackHandler =>
                unchanged(this) && replies == [] && requests == [] && cache.files == old(cache.files)
    {
      requests := [];
      match RouteCallback(data) {
        case DayButton(date) =>
          var r;
          r, requests := ShowDayDetails(u, date, w);
          replies := [r];
        case BackButton =>
          var r;
          r, requests := BackToForecast(u, w);
          replies := [r];
        case NotifButton(on) =>
          var r := ToggleNotifications(u, on);
          replies := [r];
        case ByLocationButton =>
          var r;
          r, requests := ExtendedByLocation(u, w);
          replies := [r];
        case ByCityButton =>
          var r := Ask(u, CityForExtended);
          replies := [r];
        case NoCallbackHandler =>
          replies := [];
      }
    }

    /** One cycle of the notification worker, over the users in their dict order. */
    method NotificationCycle(order: seq<UserId>, w: World) returns (sent: seq<UserId>, requests: seq<Request>)
      requires forall u :: u in order <==> u in users
      requires forall i, j | 0 <= i < j < |order| :: order[i] != order[j]
      modifies cache
      ensures var r := Cycle(old(cache.files), users, order, w);
              sent == r.sent && cache.files == r.files && requests == r.requests
    {
      sent, requests := [], [];
      ghost var targeted: seq<UserId> := [];
      for i := 0 to |order|
        invariant Cycle(old(cache.files), users, order[..i], w) == CycleResult(targeted, sent, cache.files, requests)
      {
        CycleStep(old(cache.files), users, order, i, w);
        var u := order[i];
        if u in users && users[u].notifications && users[u].location.Some? {
          var at := users[u].location.value;
          var weather, more := GetCurrentWeather(cache, None, Some(at.lat), Some(at.lon), w);
          requests := requests + more;
          targeted := targeted + [u];
          if ErrorTest(weather) == Some(false) && w.delivers(u) {
            sent := sent + [u];
          }
        }
      }
      assert order[..|order|] == order;
    }
  }
}
