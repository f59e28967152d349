/**
 * The deterministic part of `WeatherAPI` (mcp_server/weather_mcp_server.py:169-311):
 * request shaping for the daily forecast, the wind-force ladder, the advice
 * rules and the report template.
 */
module Forecast {
  import opened Wrappers
  import opened Strings
  import opened Cities
  import opened Sky
  import Geocoder

  // ---------------------------------------------------------------- forecast body

  /** One entry of `result.daily.temperature`: its `date` text and `int()` of `max` and `min`. */
  datatype DayTemperature = DayTemperature(date: string, max: int, min: int)

  /**
   * `result.daily` of a forecast body, one list per field: temperatures, sky
   * codes, rain probability and average humidity already scaled to whole
   * percent, and average wind speed in metres per second.
   */
  datatype Daily = Daily(
    temperature: seq<DayTemperature>,
    skycon: seq<string>,
    rainProbability: seq<int>,
    humidity: seq<int>,
    windSpeed: seq<real>)

  /** A forecast body: its `status` (absent when the key is missing) and its daily lists. */
  datatype ForecastBody = ForecastBody(status: Option<string>, daily: Daily)

  // ---------------------------------------------------------------- request shaping

  /** The forecast service's base URL and key (configuration, read at start-up). */
  datatype ForecastConfig = ForecastConfig(baseUrl: string, apiKey: string)

  /** The daily-forecast request: its URL and the `dailysteps` query parameter. */
  datatype DailyRequest = DailyRequest(url: string, dailySteps: int)

  /** `get_daily_weather` never asks for more than this many days. */
  const MaxDailySteps := 15

  /**
   * The request `get_daily_weather` sends for a resolved coordinate: the path
   * carries the pair longitude first, and `dailysteps` caps the day count at 15
   * from above only. `showReal` stands for Python's `str` on a float.
   */
  function DailyRequestFor(config: ForecastConfig, coord: Coord, days: int, showReal: real -> string): (req: DailyRequest)
    ensures req.dailySteps <= MaxDailySteps && req.dailySteps <= days
    ensures req.dailySteps == days || req.dailySteps == MaxDailySteps
  {
    DailyRequest(
      config.baseUrl + "/" + config.apiKey + "/" + showReal(coord.lon) + "," + showReal(coord.lat) + "/daily",
      if days < MaxDailySteps then days else MaxDailySteps)
  }

  /**
   * The path segment before "/daily" is a location in the geocoding service's
   * own "longitude,latitude" format: read back by the geocoder's parser, it
   * gives the very coordinate the request was built from.
   */
  lemma DailyRequestCarriesLongitudeFirst(config: ForecastConfig, coord: Coord, days: int,
                                          showReal: real -> string, parse: string -> Option<real>)
    requires '/' !in showReal(coord.lon) && '/' !in showReal(coord.lat)
    requires ',' !in showReal(coord.lon) && ',' !in showReal(coord.lat)
    requires parse(showReal(coord.lon)) == Some(coord.lon) && parse(showReal(coord.lat)) == Some(coord.lat)
    ensures var segments := Split(DailyRequestFor(config, coord, days, showReal).url, '/');
            && |segments| >= 2
            && segments[|segments| - 1] == "daily"
            && Geocoder.ParseLocation(segments[|segments| - 2], parse) == Some(coord)
  {
    var lonText, latText := showReal(coord.lon), showReal(coord.lat);
    var head := config.baseUrl + "/" + config.apiKey;
    var seg := lonText + "," + latText;
    var url := DailyRequestFor(config, coord, days, showReal).url;
    assert url == head + ['/'] + (seg + ['/'] + "daily");
    SplitAppend(head, seg + ['/'] + "daily", '/');
    SplitAppend(seg, "daily", '/');
    assert '/' !in seg;
    SplitNoSeparator(seg, '/');
    SplitNoSeparator("daily", '/');
    Geocoder.ParseLocationSwaps(lonText, latText, parse);
  }

  // ---------------------------------------------------------------- wind force

  /** The km/h ladder of `wind_speed_to_level`. */
  function KmhToLevel(kmh: real): (level: int)
    ensures 0 <= level <= 12
    ensures level == 0 <==> kmh < 1.0
    ensures level == 12 <==> kmh >= 118.0
  {
    if kmh < 1.0 then 0
    else if kmh < 6.0 then 1
    else if kmh < 12.0 then 2
    else if kmh < 20.0 then 3
    else if kmh < 29.0 then 4
    else if kmh < 39.0 then 5
    else if kmh < 50.0 then 6
    else if kmh < 62.0 then 7
    else if kmh < 75.0 then 8
    else if kmh < 89.0 then 9
    else if kmh < 103.0 then 10
    else if kmh < 118.0 then 11
    else 12
  }

  /** `wind_speed_to_level(speed_ms)`: metres per second times 3.6 gives km/h. */
  function WindSpeedToLevel(speedMs: real): (level: int)
    ensures 0 <= level <= 12
  {
    KmhToLevel(speedMs * 3.6)
  }

  /** The first km/h value of levels 1 to 12. */
  const WindThresholds: seq<real> := [1.0, 6.0, 12.0, 20.0, 29.0, 39.0, 50.0, 62.0, 75.0, 89.0, 103.0, 118.0]

  /** How many of `ts[k..]` are at most `v`. */
  function ThresholdsReached(ts: seq<real>, v: real, k: nat): nat
    decreases |ts| - k
  {
    if k >= |ts| then 0
    else (if ts[k] <= v then 1 else 0) + ThresholdsReached(ts, v, k + 1)
  }

  /** Counting thresholds reached is monotone in the value. */
  lemma {:induction false} ThresholdsReachedMonotone(ts: seq<real>, a: real, b: real, k: nat)
    requires a <= b
    ensures ThresholdsReached(ts, a, k) <= ThresholdsReached(ts, b, k)
    decreases |ts| - k
  {
    if k < |ts| {
      ThresholdsReachedMonotone(ts, a, b, k + 1);
    }
  }

  /** The ladder is the number of thresholds the speed has reached. */
  lemma KmhLevelCountsThresholds(kmh: real)
    ensures KmhToLevel(kmh) == ThresholdsReached(WindThresholds, kmh, 0)
  {
    var t := WindThresholds;
    assert ThresholdsReached(t, kmh, 12) == 0;
    assert ThresholdsReached(t, kmh, 11) == (if 118.0 <= kmh then 1 else 0);
    assert ThresholdsReached(t, kmh, 10) == (if 103.0 <= kmh then 1 else 0) + ThresholdsReached(t, kmh, 11);
    assert ThresholdsReached(t, kmh, 9) == (if 89.0 <= kmh then 1 else 0) + ThresholdsReached(t, kmh, 10);
    assert ThresholdsReached(t, kmh, 8) == (if 75.0 <= kmh then 1 else 0) + ThresholdsReached(t, kmh, 9);
    assert ThresholdsReached(t, kmh, 7) == (if 62.0 <= kmh then 1 else 0) + ThresholdsReached(t, kmh, 8);
    assert ThresholdsReached(t, kmh, 6) == (if 50.0 <= kmh then 1 else 0) + ThresholdsReached(t, kmh, 7);
    assert ThresholdsReached(t, kmh, 5) == (if 39.0 <= kmh then 1 else 0) + ThresholdsReached(t, kmh, 6);
    assert ThresholdsReached(t, kmh, 4) == (if 29.0 <= kmh then 1 else 0) + ThresholdsReached(t, kmh, 5);
    assert ThresholdsReached(t, kmh, 3) == (if 20.0 <= kmh then 1 else 0) + ThresholdsReached(t, kmh, 4);
    assert ThresholdsReached(t, kmh, 2) == (if 12.0 <= kmh then 1 else 0) + ThresholdsReached(t, kmh, 3);
    assert ThresholdsReached(t, kmh, 1) == (if 6.0 <= kmh then 1 else 0) + ThresholdsReached(t, kmh, 2);
    assert ThresholdsReached(t, kmh, 0) == (if 1.0 <= kmh then 1 else 0) + ThresholdsReached(t, kmh, 1);
  }

  /** A stronger wind never gets a lower force level. */
  lemma WindLevelMonotone(slower: real, faster: real)
    requires slower <= faster
    ensures WindSpeedToLevel(slower) <= WindSpeedToLevel(faster)
  {
    KmhLevelCountsThresholds(slower * 3.6);
    KmhLevelCountsThresholds(faster * 3.6);
    ThresholdsReachedMonotone(WindThresholds, slower * 3.6, faster * 3.6, 0);
  }

  /** Each threshold is the first km/h value of the next level: at it the level is i + 1, below it at most i. */
  lemma ThresholdStartsLevel(i: nat, kmh: real)
    requires i < |WindThresholds|
    ensures KmhToLevel(WindThresholds[i]) == i + 1
    ensures kmh < WindThresholds[i] ==> KmhToLevel(kmh) <= i
  {
    KmhLevelCountsThresholds(kmh);
    KmhLevelCountsThresholds(WindThresholds[i]);
    if kmh < WindThresholds[i] {
      ThresholdsBelow(kmh, i);
    }
  }

  /** A value below threshold i reaches at most the i thresholds before it. */
  lemma ThresholdsBelow(kmh: real, i: nat)
    requires i < |WindThresholds| && kmh < WindThresholds[i]
    ensures ThresholdsReached(WindThresholds, kmh, 0) <= i
  {
    KmhLevelCountsThresholds(kmh);
  }

  // ---------------------------------------------------------------- advice

  const HeatTip := "天气炎热，注意防暑降温"
  const ColdTip := "天气寒冷，注意保暖添衣"
  const SwingTip := "昼夜温差大，适时增减衣物"
  const RainGearTip := "降雨概率高，建议携带雨具"
  const UmbrellaTip := "可能有降雨，备好雨伞"
  const VisibilityTip := "能见度较低，出行注意安全"
  const OutdoorTip := "天气晴朗，适合户外活动"
  const SnowTip := "有降雪，注意路面湿滑"
  /** Every sentence a rule can contribute. */
  const AllTips: set<string> := {HeatTip, ColdTip, SwingTip, RainGearTip, UmbrellaTip, VisibilityTip, OutdoorTip, SnowTip}
  const TipSeparator := "，"
  const DefaultAdvice := "天气适宜，祝您生活愉快"

  /** The temperature rule: heat before cold before a wide day-night swing; at most one fires. */
  function TemperatureTip(tempMax: int, tempMin: int): (tip: Option<string>)
    ensures tip == Some(HeatTip) <==> tempMax >= 30
    ensures tip == Some(ColdTip) <==> tempMax < 30 && tempMin <= 5
    ensures tip == Some(SwingTip) <==> tempMax < 30 && tempMin > 5 && tempMax - tempMin > 15
    ensures tip.None? <==> tempMax < 30 && tempMin > 5 && tempMax - tempMin <= 15
  {
    if tempMax >= 30 then Some(HeatTip)
    else if tempMin <= 5 then Some(ColdTip)
    else if tempMax - tempMin > 15 then Some(SwingTip)
    else None
  }

  /** The rain rule: above 70 percent rain gear, else above 30 an umbrella. */
  function RainTip(rainProb: int): (tip: Option<string>)
    ensures tip == Some(RainGearTip) <==> rainProb > 70
    ensures tip == Some(UmbrellaTip) <==> 30 < rainProb <= 70
    ensures tip.None? <==> rainProb <= 30
  {
    if rainProb > 70 then Some(RainGearTip)
    else if rainProb > 30 then Some(UmbrellaTip)
    else None
  }

  /** The sky rule on the label: fog or haze before clear before snow. */
  function SkyTip(weather: string): (tip: Option<string>)
    ensures tip == Some(VisibilityTip) <==> '雾' in weather || '霾' in weather
    ensures tip == Some(OutdoorTip) <==> '雾' !in weather && '霾' !in weather && '晴' in weather
    ensures tip == Some(SnowTip) <==> '雾' !in weather && '霾' !in weather && '晴' !in weather && '雪' in weather
    ensures tip.None? <==> '雾' !in weather && '霾' !in weather && '晴' !in weather && '雪' !in weather
  {
    if '雾' in weather || '霾' in weather then Some(VisibilityTip)
    else if '晴' in weather then Some(OutdoorTip)
    else if '雪' in weather then Some(SnowTip)
    else None
  }

  /**
   * The sky rule on the labels of known codes: haze and fog warn about
   * visibility, both clear codes (the night one included) suggest going out,
   * the four snow codes warn about roads, and no other known code gives a sky tip.
   */
  lemma SkyTipsOfKnownCodes(code: string)
    requires code in SkyconMap
    ensures SkyTip(SkyLabel(code)) == Some(VisibilityTip) <==> code in {"LIGHT_HAZE", "MODERATE_HAZE", "HEAVY_HAZE", "FOG"}
    ensures SkyTip(SkyLabel(code)) == Some(OutdoorTip) <==> code in {"CLEAR_DAY", "CLEAR_NIGHT"}
    ensures SkyTip(SkyLabel(code)) == Some(SnowTip) <==> code in {"LIGHT_SNOW", "MODERATE_SNOW", "HEAVY_SNOW", "STORM_SNOW"}
  {
  }

  function Present(tip: Option<string>): seq<string> {
    match tip
    case Some(t) => [t]
    case None => []
  }

  /** The tips that fire, in the order temperature, rain, sky. */
  function Tips(weather: string, tempMax: int, tempMin: int, rainProb: int): (tips: seq<string>)
    ensures |tips| <= 3
    ensures |tips| == 0 <==> TemperatureTip(tempMax, tempMin).None? && RainTip(rainProb).None? && SkyTip(weather).None?
    ensures forall i :: 0 <= i < |tips| ==> tips[i] in AllTips
  {
    Present(TemperatureTip(tempMax, tempMin)) + Present(RainTip(rainProb)) + Present(SkyTip(weather))
  }

  /**
   * The advice text: the tips joined with "，", or the default sentence when
   * none fires. No join of tips can equal the default sentence, so it appears
   * exactly when no rule fires.
   */
  function Advice(weather: string, tempMax: int, tempMin: int, rainProb: int): (advice: string)
    ensures advice == DefaultAdvice <==>
      && TemperatureTip(tempMax, tempMin).None?
      && RainTip(rainProb).None?
      && SkyTip(weather).None?
  {
    var tips := Tips(weather, tempMax, tempMin, rainProb);
    if |tips| == 0 then DefaultAdvice
    else
      var joined := Join(TipSeparator, tips);
      JoinStartsWithFirst(TipSeparator, tips);
      assert tips[0] in AllTips;
      assert |tips[0]| > 2 && tips[0][2] != DefaultAdvice[2];
      assert joined[2] == tips[0][2];
      joined
  }

  /**
   * `_get_weather_tips`: collects the tips in a list as the source does and
   * joins them; the result is the advice text of the rules above.
   */
  method WeatherTips(weather: string, tempMax: int, tempMin: int, rainProb: int) returns (advice: string)
    ensures advice == Advice(weather, tempMax, tempMin, rainProb)
  {
    var tips: seq<string> := [];
    if tempMax >= 30 {
      tips := tips + [HeatTip];
    } else if tempMin <= 5 {
      tips := tips + [ColdTip];
    } else if tempMax - tempMin > 15 {
      tips := tips + [SwingTip];
    }
    assert tips == Present(TemperatureTip(tempMax, tempMin));
    if rainProb > 70 {
      tips := tips + [RainGearTip];
    } else if rainProb > 30 {
      tips := tips + [UmbrellaTip];
    }
    assert tips == Present(TemperatureTip(tempMax, tempMin)) + Present(RainTip(rainProb));
    if '雾' in weather || '霾' in weather {
      tips := tips + [VisibilityTip];
    } else if '晴' in weather {
      tips := tips + [OutdoorTip];
    } else if '雪' in weather {
      tips := tips + [SnowTip];
    }
    assert tips == Tips(weather, tempMax, tempMin, rainProb);
    advice := if |tips| > 0 then Join(TipSeparator, tips) else DefaultAdvice;
  }

  /** No advice text spans two lines. */
  lemma AdviceHasNoNewline(weather: string, tempMax: int, tempMin: int, rainProb: int)
    ensures '\n' !in Advice(weather, tempMax, tempMin, rainProb)
  {
    var tips := Tips(weather, tempMax, tempMin, rainProb);
    assert forall t :: t in AllTips ==> '\n' !in t;
    JoinExcludes(TipSeparator, tips, '\n');
  }

  /** Hot, rainy and clear: heat, rain gear and outdoor tips, in that order. */
  lemma AdviceHotRainyClear()
    ensures Advice("晴天", 32, 20, 80) == HeatTip + "，" + RainGearTip + "，" + OutdoorTip
  {
  }

  /** Mild, dry and cloudy: no rule fires. */
  lemma AdviceMildCloudy()
    ensures Advice("多云", 18, 17, 10) == DefaultAdvice
  {
  }

  // ---------------------------------------------------------------- report

  /** The values one report shows, already converted as `format_weather_data` converts them. */
  datatype DayReport = DayReport(
    date: string, desc: string, tempMin: int, tempMax: int,
    humidity: int, windLevel: int, rainProbability: int, advice: string)

  /** The leading marker of each of the seven report lines. */
  const ReportMarkers: seq<string> := ["📍 ", "🌤️ 天气：", "🌡️ 温度：", "💧 湿度：", "💨 风力：", "🌧️ 降水概率：", "💡 生活建议："]

  /** The seven lines of the report, in the source's fixed order. */
  function ReportLines(city: string, r: DayReport): (lines: seq<string>)
    ensures |lines| == |ReportMarkers|
    ensures forall k :: 0 <= k < |lines| ==> ReportMarkers[k] <= lines[k]
  {
    var lines := [ ReportMarkers[0] + city + " " + r.date,
      ReportMarkers[1] + r.desc,
      ReportMarkers[2] + IntToString(r.tempMin) + "°C ~ " + IntToString(r.tempMax) + "°C",
      ReportMarkers[3] + IntToString(r.humidity) + "%",
      ReportMarkers[4] + IntToString(r.windLevel) + "级",
      ReportMarkers[5] + IntToString(r.rainProbability) + "%",
      ReportMarkers[6] + r.advice ];
    assert ReportMarkers[0] <= lines[0] && ReportMarkers[1] <= lines[1] && ReportMarkers[2] <= lines[2];
    assert ReportMarkers[3] <= lines[3] && ReportMarkers[4] <= lines[4] && ReportMarkers[5] <= lines[5];
    assert ReportMarkers[6] <= lines[6];
    lines
  }

  /** The report text: the seven lines joined with newlines. */
  function FormatDailyReport(city: string, r: DayReport): (text: string)
    ensures |text| > 0 && text[0] == '📍'
  {
    var lines := ReportLines(city, r);
    assert lines[0][0] == '📍';
    Join("\n", lines)
  }

  /**
   * A consumer that splits the report on newlines gets back exactly the
   * seven lines, the first naming the city, provided the free texts in it
   * are single-line.
   */
  lemma ReportSplitsIntoItsLines(city: string, r: DayReport)
    requires '\n' !in city && '\n' !in r.date && '\n' !in r.desc && '\n' !in r.advice
    ensures Split(FormatDailyReport(city, r), '\n') == ReportLines(city, r)
    ensures |Split(FormatDailyReport(city, r), '\n')| == 7
    ensures Split(FormatDailyReport(city, r), '\n')[0] == "📍 " + city + " " + r.date
  {
    var lines := ReportLines(city, r);
    IntToStringSingleLine(r.tempMin);
    IntToStringSingleLine(r.tempMax);
    IntToStringSingleLine(r.humidity);
    IntToStringSingleLine(r.windLevel);
    IntToStringSingleLine(r.rainProbability);
    assert '\n' !in lines[0] && '\n' !in lines[1] && '\n' !in lines[2] && '\n' !in lines[3];
    assert '\n' !in lines[4] && '\n' !in lines[5] && '\n' !in lines[6];
    SplitJoin(lines, '\n');
  }

  /** Every known label is single-line, so a label spans two lines only if its unknown code does. */
  lemma SkyLabelSingleLine(code: string)
    requires '\n' !in code
    ensures '\n' !in SkyLabel(code)
  {
    assert forall c :: c in SkyconMap ==> '\n' !in SkyconMap[c];
  }

  /** Every list of `daily` has an entry for day `i`. */
  predicate DayComplete(daily: Daily, i: nat) {
    && i < |daily.temperature|
    && i < |daily.skycon|
    && i < |daily.rainProbability|
    && i < |daily.humidity|
    && i < |daily.windSpeed|
  }

  /** The report values of day `i`: the date cut to ten characters, the sky label, the wind level and the advice. */
  function DayReportOf(daily: Daily, i: nat): (r: DayReport)
    requires DayComplete(daily, i)
    ensures r.date == Take(daily.temperature[i].date, 10)
    ensures r.desc == SkyLabel(daily.skycon[i])
    ensures 0 <= r.windLevel <= 12
  {
    var temp := daily.temperature[i];
    var desc := SkyLabel(daily.skycon[i]);
    DayReport(
      Take(temp.date, 10), desc, temp.min, temp.max,
      daily.humidity[i], WindSpeedToLevel(daily.windSpeed[i]), daily.rainProbability[i],
      Advice(desc, temp.max, temp.min, daily.rainProbability[i]))
  }

  /** Python's `str` of the `IndexError` raised by reading past the end of a list. */
  const IndexErrorText := "list index out of range"

  function FetchFailedText(city: string): string { "❌ 获取" + city + "天气失败" }

  function NoDayText(city: string, targetDay: nat): string {
    "❌ 没有" + city + "第" + IntToString(targetDay + 1) + "天的天气数据"
  }

  /**
   * `format_weather_data(data, city, target_day)`: a failed status and a day
   * beyond the temperature list are texts; a day missing from any other list
   * raises `IndexError`; otherwise the report of that day.
   */
  function FormatWeatherData(data: ForecastBody, city: string, targetDay: nat): (r: Result<string>)
    ensures data.status != Some("ok") ==> r == Ok(FetchFailedText(city))
    ensures data.status == Some("ok") && targetDay >= |data.daily.temperature| ==> r == Ok(NoDayText(city, targetDay))
    ensures r.Err? <==> data.status == Some("ok") && targetDay < |data.daily.temperature| && !DayComplete(data.daily, targetDay)
    ensures r.Err? ==> r.message == IndexErrorText
    ensures r.Ok? ==> |r.value| > 0 && (r.value[0] == '📍' || r.value[0] == '❌')
    ensures r.Ok? ==> (r.value[0] == '📍' <==> data.status == Some("ok") && DayComplete(data.daily, targetDay))
    ensures data.status == Some("ok") && DayComplete(data.daily, targetDay) ==>
              r == Ok(FormatDailyReport(city, DayReportOf(data.daily, targetDay)))
  {
    if data.status != Some("ok") then Ok(FetchFailedText(city))
    else if targetDay >= |data.daily.temperature| then Ok(NoDayText(city, targetDay))
    else if !DayComplete(data.daily, targetDay) then Err(IndexErrorText)
    else Ok(FormatDailyReport(city, DayReportOf(data.daily, targetDay)))
  }

  /**
   * A formatted day splits into seven lines whose first holds the location
   * marker, the city and the day's date (when city, date and sky code are single-line).
   */
  lemma FormattedDayHasSevenLines(data: ForecastBody, city: string, targetDay: nat)
    requires data.status == Some("ok") && DayComplete(data.daily, targetDay)
    requires '\n' !in city && '\n' !in data.daily.temperature[targetDay].date && '\n' !in data.daily.skycon[targetDay]
    ensures FormatWeatherData(data, city, targetDay).Ok?
    ensures var lines := Split(FormatWeatherData(data, city, targetDay).value, '\n');
            |lines| == 7 && lines[0] == "📍 " + city + " " + Take(data.daily.temperature[targetDay].date, 10)
  {
    var r := DayReportOf(data.daily, targetDay);
    assert FormatWeatherData(data, city, targetDay) == Ok(FormatDailyReport(city, r));
    assert r.date <= data.daily.temperature[targetDay].date;
    SkyLabelSingleLine(data.daily.skycon[targetDay]);
    AdviceHasNoNewline(r.desc, r.tempMax, r.tempMin, r.rainProbability);
    assert r.advice == Advice(r.desc, r.tempMax, r.tempMin, r.rainProbability);
    ReportSplitsIntoItsLines(city, r);
  }
}
