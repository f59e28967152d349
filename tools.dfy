/**
 * The five tool handlers and `call_tool` (mcp_server/weather_mcp_server.py:319-404, 488-502):
 * argument defaults, the per-day summary loop, and the conversion of every
 * exception into a text reply.
 */
module Tools {
  import opened Wrappers
  import opened Strings
  import opened Cities
  import opened Sky
  import opened Geocoder
  import opened Forecast

  /** The arguments the handlers read; either may be absent. */
  datatype Arguments = Arguments(city: Option<string>, days: Option<int>)

  const DefaultCity := "北京"
  const DefaultDays := 3

  /** What the forecast request produced: a body, or the text of the exception it raised. */
  datatype FetchReply = Body(body: ForecastBody) | Failed(message: string)

  /** The outcome of `get_daily_weather` once the coordinate lookup has given `coord`. */
  function DailyWeather(city: string, coord: Option<Coord>, fetch: FetchReply): (data: Result<ForecastBody>)
    ensures data.Ok? <==> coord.Some? && fetch.Body?
    ensures data.Ok? ==> data.value == fetch.body
    ensures coord.None? ==> data == Err("不支持的城市：" + city)
    ensures coord.Some? && fetch.Failed? ==> data == Err(fetch.message)
  {
    if coord.None? then Err("不支持的城市：" + city)
    else match fetch
      case Body(b) => Ok(b)
      case Failed(m) => Err(m)
  }

  /**
   * `WeatherAPI.get_daily_weather(city, days)`: resolves the city (which may
   * add it to the geocoder's cache), raises for an unknown city without
   * contacting the forecast service, and otherwise sends the shaped request.
   */
  method GetDailyWeather(geo: AmapGeocoder, config: ForecastConfig, showReal: real -> string,
                         city: string, days: int, geoReply: GeocodeReply, fetch: FetchReply)
    returns (data: Result<ForecastBody>, sent: Option<DailyRequest>)
    requires geo.Valid()
    modifies geo`coordCache
    ensures geo.Valid()
    ensures var res := Resolve(old(geo.coordCache), city, geoReply, geo.parseFloat);
            && geo.coordCache == res.cache
            && data == DailyWeather(city, res.coord, fetch)
            && (res.coord.None? ==> sent.None?)
            && (res.coord.Some? ==> sent == Some(DailyRequestFor(config, res.coord.value, days, showReal)))
  {
    var coord, _ := geo.GetCoordinates(city, geoReply);
    if coord.None? {
      return Err("不支持的城市：" + city), None;
    }
    sent := Some(DailyRequestFor(config, coord.value, days, showReal));
    data := match fetch
      case Body(b) => Ok(b)
      case Failed(m) => Err(m);
  }

  // ---------------------------------------------------------------- today

  /** The text `handle_query_weather_today` returns for the outcome of the forecast request for day 0. */
  function TodayText(city: string, data: Result<ForecastBody>): (text: string)
    ensures |text| > 0
    ensures text[0] == '📍' <==> data.Ok? && data.value.status == Some("ok") && DayComplete(data.value.daily, 0)
    ensures text[0] != '📍' ==> text[0] == '❌'
    ensures data.Ok? && data.value.status == Some("ok") && DayComplete(data.value.daily, 0) ==>
              text == FormatDailyReport(city, DayReportOf(data.value.daily, 0))
    ensures data.Err? ==> text == "❌ 查询" + city + "今天天气失败: " + data.message
  {
    match data
    case Err(m) => "❌ 查询" + city + "今天天气失败: " + m
    case Ok(body) =>
      match FormatWeatherData(body, city, 0)
      case Ok(t) => t
      case Err(m) => "❌ 查询" + city + "今天天气失败: " + m
  }

  // ---------------------------------------------------------------- tomorrow

  /**
   * The text `handle_query_weather_tomorrow` returns: day 1 is formatted only
   * when the temperature list has more than one entry, a check made before
   * the status is looked at.
   */
  function TomorrowText(city: string, data: Result<ForecastBody>): (text: string)
    ensures |text| > 0
    ensures text[0] == '📍' <==> data.Ok? && data.value.status == Some("ok") && DayComplete(data.value.daily, 1)
    ensures text[0] != '📍' ==> text[0] == '❌'
    ensures data.Ok? && |data.value.daily.temperature| <= 1 ==> text == "❌ 获取" + city + "明天天气数据不足"
    ensures data.Ok? && data.value.status == Some("ok") && DayComplete(data.value.daily, 1) ==>
              text == FormatDailyReport(city, DayReportOf(data.value.daily, 1))
    ensures data.Err? ==> text == "❌ 查询" + city + "明天天气失败: " + data.message
  {
    match data
    case Err(m) => "❌ 查询" + city + "明天天气失败: " + m
    case Ok(body) =>
      if |body.daily.temperature| > 1 then
        match FormatWeatherData(body, city, 1)
        case Ok(t) => t
        case Err(m) => "❌ 查询" + city + "明天天气失败: " + m
      else "❌ 获取" + city + "明天天气数据不足"
  }

  // ---------------------------------------------------------------- future days

  function FutureHeader(city: string, days: int): string {
    "📍 " + city + " 未来" + IntToString(days) + "天天气预报："
  }

  /** The summary line of day `i`: date, sky label and temperature range. */
  function DayLine(daily: Daily, i: nat): (line: string)
    requires i < |daily.temperature| && i < |daily.skycon|
    ensures "📅 " <= line
  {
    var t := daily.temperature[i];
    "📅 " + Take(t.date, 10) + "：" + SkyLabel(daily.skycon[i]) + "，" + IntToString(t.min) + "°C ~ " + IntToString(t.max) + "°C"
  }

  /** The summary lines of days 0 to n - 1. */
  function DayLines(daily: Daily, n: nat): (lines: seq<string>)
    requires n <= |daily.temperature| && n <= |daily.skycon|
    ensures |lines| == n
    ensures forall i :: 0 <= i < n ==> lines[i] == DayLine(daily, i)
  {
    seq(n, i requires 0 <= i < n => DayLine(daily, i))
  }

  /** One more day adds its line at the end. */
  lemma DayLinesExtend(daily: Daily, i: nat)
    requires i < |daily.temperature| && i < |daily.skycon|
    ensures DayLines(daily, i + 1) == DayLines(daily, i) + [DayLine(daily, i)]
  {
    assert forall k :: 0 <= k < i ==> DayLines(daily, i + 1)[k] == DayLines(daily, i)[k];
  }

  /** `min(days, len(temperature))`, as a count of loop iterations (none when negative). */
  function DayCount(days: int, daily: Daily): (n: nat)
    ensures n <= |daily.temperature|
    ensures days < 0 ==> n == 0
    ensures days >= 0 ==> n == if days < |daily.temperature| then days else |daily.temperature|
  {
    var m := if days < |daily.temperature| then days else |daily.temperature|;
    if m < 0 then 0 else m
  }

  function FutureFailedText(city: string, days: int, message: string): string {
    "❌ 查询" + city + "未来" + IntToString(days) + "天天气失败: " + message
  }

  /**
   * The reply of `handle_query_weather_future_days` for the outcome of its
   * forecast request: the header and one line for each of the first
   * `min(days, len(temperature))` days; a sky list shorter than that raises
   * `IndexError` part-way.
   */
  function FutureDaysReply(city: string, days: int, data: Result<ForecastBody>): (text: string)
    ensures |text| > 0
    ensures text[0] == '📍' <==>
      data.Ok? && data.value.status == Some("ok") && DayCount(days, data.value.daily) <= |data.value.daily.skycon|
    ensures text[0] != '📍' ==> text[0] == '❌'
  {
    match data
    case Err(m) => FutureFailedText(city, days, m)
    case Ok(body) =>
      if body.status != Some("ok") then FetchFailedText(city)
      else
        var n := DayCount(days, body.daily);
        if n <= |body.daily.skycon| then Join("\n", [FutureHeader(city, days)] + DayLines(body.daily, n))
        else FutureFailedText(city, days, IndexErrorText)
  }

  /** `handle_query_weather_future_days` after the request: the loop that collects the lines. */
  method FutureDaysText(city: string, days: int, data: Result<ForecastBody>) returns (text: string)
    ensures text == FutureDaysReply(city, days, data)
  {
    if data.Err? {
      return FutureFailedText(city, days, data.message);
    }
    var body := data.value;
    if body.status != Some("ok") {
      return FetchFailedText(city);
    }
    var daily := body.daily;
    var results := [FutureHeader(city, days)];
    var n := DayCount(days, daily);
    var i := 0;
    while i < n
      invariant 0 <= i <= n
      invariant i <= |daily.skycon|
      invariant results == [FutureHeader(city, days)] + DayLines(daily, i)
    {
      if i >= |daily.skycon| {
        assert n > |daily.skycon|;
        return FutureFailedText(city, days, IndexErrorText);
      }
      DayLinesExtend(daily, i);
      results := results + [DayLine(daily, i)];
      i := i + 1;
    }
    assert n <= |daily.skycon|;
    text := Join("\n", results);
  }

  /**
   * The future-days reply, split on newlines, is the header followed by exactly
   * one "📅" line per day shown (when city, dates and sky codes are single-line).
   */
  lemma FutureDaysSplitsIntoLines(city: string, days: int, daily: Daily)
    requires DayCount(days, daily) <= |daily.skycon|
    requires '\n' !in city
    requires forall i :: 0 <= i < |daily.temperature| ==> '\n' !in daily.temperature[i].date
    requires forall i :: 0 <= i < |daily.skycon| ==> '\n' !in daily.skycon[i]
    ensures var lines := Split(FutureDaysReply(city, days, Ok(ForecastBody(Some("ok"), daily))), '\n');
            && |lines| == 1 + DayCount(days, daily)
            && lines[0] == FutureHeader(city, days)
            && forall i :: 1 <= i < |lines| ==> "📅 " <= lines[i]
  {
    var n := DayCount(days, daily);
    assert FutureDaysReply(city, days, Ok(ForecastBody(Some("ok"), daily)))
        == Join("\n", [FutureHeader(city, days)] + DayLines(daily, n));
    HeaderSingleLine(city, days);
    DayLinesAreSingleLines(daily, n);
    HeaderAndLinesSplit(FutureHeader(city, days), DayLines(daily, n));
  }

  /** A single-line header followed by single "📅" lines splits back into exactly those lines. */
  lemma HeaderAndLinesSplit(header: string, lines: seq<string>)
    requires '\n' !in header
    requires forall i :: 0 <= i < |lines| ==> '\n' !in lines[i] && "📅 " <= lines[i]
    ensures var split := Split(Join("\n", [header] + lines), '\n');
            && |split| == 1 + |lines|
            && split[0] == header
            && forall i :: 1 <= i < |split| ==> "📅 " <= split[i]
  {
    var parts := [header] + lines;
    assert forall i :: 1 <= i < |parts| ==> parts[i] == lines[i - 1];
    assert "\n" == ['\n'];
    SplitJoin(parts, '\n');
  }

  /** Each of the first `n` day lines is a single line when its date and sky code are. */
  lemma DayLinesAreSingleLines(daily: Daily, n: nat)
    requires n <= |daily.temperature| && n <= |daily.skycon|
    requires forall i :: 0 <= i < n ==> '\n' !in daily.temperature[i].date && '\n' !in daily.skycon[i]
    ensures forall i :: 0 <= i < n ==> '\n' !in DayLines(daily, n)[i]
  {
    forall i | 0 <= i < n ensures '\n' !in DayLines(daily, n)[i] {
      DayLineSingleLine(daily, i);
    }
  }

  /** The future-days header is a single line when the city name is. */
  lemma HeaderSingleLine(city: string, days: int)
    requires '\n' !in city
    ensures '\n' !in FutureHeader(city, days)
  {
    IntToStringSingleLine(days);
  }

  /** A day line is a single line when its date and sky code are. */
  lemma DayLineSingleLine(daily: Daily, i: nat)
    requires i < |daily.temperature| && i < |daily.skycon|
    requires '\n' !in daily.temperature[i].date && '\n' !in daily.skycon[i]
    ensures '\n' !in DayLine(daily, i)
  {
    var t := daily.temperature[i];
    assert Take(t.date, 10) <= t.date;
    SkyLabelSingleLine(daily.skycon[i]);
    IntToStringSingleLine(t.min);
    IntToStringSingleLine(t.max);
  }

  // ---------------------------------------------------------------- supported cities

  /** `handle_get_supported_cities`: the built-in names joined with "、" between a heading and a note. */
  function SupportedCitiesText(): (text: string)
    ensures "内置城市列表：\n" <= text
  {
    "内置城市列表：\n" + Join("、", CityNames()) + "\n\n其他城市也支持，通过高德地图API动态获取坐标。"
  }

  /** Every built-in city is named in the supported-cities reply. */
  lemma SupportedCitiesNamesEveryCity(name: string)
    requires name in CityCoordinates
    ensures Contains(SupportedCitiesText(), name)
  {
    var names := CityNames();
    var k :| 0 <= k < |names| && names[k] == name;
    JoinContainsPart("、", names, k);
    ContainsWithin("内置城市列表：\n", Join("、", names), "\n\n其他城市也支持，通过高德地图API动态获取坐标。", name);
  }

  // ---------------------------------------------------------------- coordinates

  /**
   * The text `handle_get_city_coordinates` returns for the lookup's result;
   * it shows latitude before longitude. `showReal` is Python's `str` on a float.
   */
  function CoordinatesText(city: string, coord: Option<Coord>, showReal: real -> string): (text: string)
    ensures |text| > 0
    ensures text[0] == '📍' <==> coord.Some?
    ensures coord.None? ==> text == "❌ 未找到城市：" + city + "，请检查城市名称是否正确"
    ensures coord.Some? ==>
              var tail := "\n坐标：" + showReal(coord.value.lat) + "," + showReal(coord.value.lon);
              |tail| <= |text| && text[|text| - |tail|..] == tail
  {
    match coord
    case Some(c) =>
      "📍 " + city + " 坐标信息：\n纬度：" + showReal(c.lat) + "\n经度：" + showReal(c.lon)
        + "\n坐标：" + showReal(c.lat) + "," + showReal(c.lon)
    case None => "❌ 未找到城市：" + city + "，请检查城市名称是否正确"
  }

  // ---------------------------------------------------------------- handlers

  method HandleQueryWeatherToday(geo: AmapGeocoder, config: ForecastConfig, showReal: real -> string,
                                 args: Arguments, geoReply: GeocodeReply, fetch: FetchReply)
    returns (text: string, sent: Option<DailyRequest>)
    requires geo.Valid()
    modifies geo`coordCache
    ensures geo.Valid()
    ensures var city := args.city.GetOr(DefaultCity);
            var res := Resolve(old(geo.coordCache), city, geoReply, geo.parseFloat);
            && geo.coordCache == res.cache
            && (res.coord.None? ==> sent.None?)
            && (res.coord.Some? ==> sent == Some(DailyRequestFor(config, res.coord.value, 1, showReal)))
            && text == TodayText(city, DailyWeather(city, res.coord, fetch))
  {
    var city := args.city.GetOr(DefaultCity);
    var data;
    data, sent := GetDailyWeather(geo, config, showReal, city, 1, geoReply, fetch);
    text := TodayText(city, data);
  }

  method HandleQueryWeatherTomorrow(geo: AmapGeocoder, config: ForecastConfig, showReal: real -> string,
                                    args: Arguments, geoReply: GeocodeReply, fetch: FetchReply)
    returns (text: string, sent: Option<DailyRequest>)
    requires geo.Valid()
    modifies geo`coordCache
    ensures geo.Valid()
    ensures var city := args.city.GetOr(DefaultCity);
            var res := Resolve(old(geo.coordCache), city, geoReply, geo.parseFloat);
            && geo.coordCache == res.cache
            && (res.coord.None? ==> sent.None?)
            && (res.coord.Some? ==> sent == Some(DailyRequestFor(config, res.coord.value, 2, showReal)))
            && text == TomorrowText(city, DailyWeather(city, res.coord, fetch))
  {
    var city := args.city.GetOr(DefaultCity);
    var data;
    data, sent := GetDailyWeather(geo, config, showReal, city, 2, geoReply, fetch);
    text := TomorrowText(city, data);
  }

  method HandleQueryWeatherFutureDays(geo: AmapGeocoder, config: ForecastConfig, showReal: real -> string,
                                      args: Arguments, geoReply: GeocodeReply, fetch: FetchReply)
    returns (text: string, sent: Option<DailyRequest>)
    requires geo.Valid()
    modifies geo`coordCache
    ensures geo.Valid()
    ensures var city := args.city.GetOr(DefaultCity);
            var days := args.days.GetOr(DefaultDays);
            var res := Resolve(old(geo.coordCache), city, geoReply, geo.parseFloat);
            && geo.coordCache == res.cache
            && (res.coord.None? ==> sent.None?)
            && (res.coord.Some? ==> sent == Some(DailyRequestFor(config, res.coord.value, days, showReal)))
            && text == FutureDaysReply(city, days, DailyWeather(city, res.coord, fetch))
  {
    var city := args.city.GetOr(DefaultCity);
    var days := args.days.GetOr(DefaultDays);
    var data;
    data, sent := GetDailyWeather(geo, config, showReal, city, days, geoReply, fetch);
    text := FutureDaysText(city, days, data);
  }

  method HandleGetCityCoordinates(geo: AmapGeocoder, showReal: real -> string,
                                  args: Arguments, geoReply: GeocodeReply)
    returns (text: string)
    requires geo.Valid()
    modifies geo`coordCache
    ensures geo.Valid()
    ensures var city := args.city.GetOr(DefaultCity);
            var res := Resolve(old(geo.coordCache), city, geoReply, geo.parseFloat);
            geo.coordCache == res.cache && text == CoordinatesText(city, res.coord, showReal)
  {
    var city := args.city.GetOr(DefaultCity);
    var coord, _ := geo.GetCoordinates(city, geoReply);
    text := CoordinatesText(city, coord, showReal);
  }

  // ---------------------------------------------------------------- dispatch

  /** The keys of `TOOL_HANDLERS`. */
  const ToolNames: set<string> := {
    "query_weather_today", "query_weather_tomorrow", "query_weather_future_days",
    "get_supported_cities", "get_city_coordinates"
  }

  /**
   * The reply of `call_tool` for a tool name, once the handler's lookup has
   * given `coord` and its forecast request (if any) has given `fetch`.
   */
  function ToolReply(name: string, args: Arguments, coord: Option<Coord>, fetch: FetchReply,
                     showReal: real -> string): (reply: string)
    ensures name !in ToolNames ==> reply == "未知工具: " + name
    ensures name in ToolNames ==> |reply| > 0 && reply[0] != '未'
  {
    var city := args.city.GetOr(DefaultCity);
    if name == "query_weather_today" then TodayText(city, DailyWeather(city, coord, fetch))
    else if name == "query_weather_tomorrow" then TomorrowText(city, DailyWeather(city, coord, fetch))
    else if name == "query_weather_future_days" then
      FutureDaysReply(city, args.days.GetOr(DefaultDays), DailyWeather(city, coord, fetch))
    else if name == "get_supported_cities" then SupportedCitiesText()
    else if name == "get_city_coordinates" then CoordinatesText(city, coord, showReal)
    else "未知工具: " + name
  }

  /**
   * `call_tool(name, arguments)`: an unknown name is answered without touching
   * anything; a known one runs its handler, and only the handlers that look a
   * city up may change the cache.
   */
  method CallTool(geo: AmapGeocoder, config: ForecastConfig, showReal: real -> string,
                  name: string, args: Arguments, geoReply: GeocodeReply, fetch: FetchReply)
    returns (text: string)
    requires geo.Valid()
    modifies geo`coordCache
    ensures geo.Valid()
    ensures var res := Resolve(old(geo.coordCache), args.city.GetOr(DefaultCity), geoReply, geo.parseFloat);
            && text == ToolReply(name, args, res.coord, fetch, showReal)
            && geo.coordCache == if name in ToolNames && name != "get_supported_cities" then res.cache else old(geo.coordCache)
  {
    if name == "query_weather_today" {
      var reply, _ := HandleQueryWeatherToday(geo, config, showReal, args, geoReply, fetch);
      text := reply;
    } else if name == "query_weather_tomorrow" {
      var reply, _ := HandleQueryWeatherTomorrow(geo, config, showReal, args, geoReply, fetch);
      text := reply;
    } else if name == "query_weather_future_days" {
      var reply, _ := HandleQueryWeatherFutureDays(geo, config, showReal, args, geoReply, fetch);
      text := reply;
    } else if name == "get_supported_cities" {
      text := SupportedCitiesText();
    } else if name == "get_city_coordinates" {
      text := HandleGetCityCoordinates(geo, showReal, args, geoReply);
    } else {
      text := "未知工具: " + name;
    }
  }
}
