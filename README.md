# A verified model of the weather_autogen core

The system answers weather questions through three agents: an intent parser, a weather agent and a formatter. A turn coordinator decides which agent speaks next and when the conversation ends. The weather agent calls a small tool server. That server resolves a city to a coordinate through a built-in table, then a per-instance cache, then the AMap geocoding service. It fetches a daily forecast from the Caiyun service. It then turns the raw forecast fields into a sky label, a wind-force level, advice text and a fixed emoji report.

This project models the deterministic parts of that pipeline in Dafny and proves properties about them:

- `wrappers.dfy`: `Option` and `Result`. `Result.Err` carries the text of a Python exception.
- `strings.dfy`: the Python string operations the tools use: `in`, `join`, `split`, `[:n]`, `str(int)`. It also proves that split/join and `str`/`int` are inverse pairs.
- `tables.dfy`: `CITY_COORDINATES`, kept as its ordered entries, and `SKYCON_MAP`.
- `geocoder.dfy`: `AmapGeocoder` as a class whose `coordCache` field is a map. `Resolve` is the pure specification of one lookup, and `GetCoordinates` is proved against it. The cache invariant is `Valid()`: built-in names never enter the cache.
- `forecast.dfy`: forecast request shaping, the wind ladder, the advice rules and the report template.
- `tools.dfy`: the five tool handlers and `call_tool`.
- `team.dfy`: the agent selector, the termination condition and the final-answer extraction of `WeatherAgentTeam`.

External replies are inputs of the model:

- `GeocodeReply` is the decoded geocoding body, or an exception.
- `FetchReply` is a forecast body, or the message of the exception the request raised.

Python's `float` (parsing one piece of a location) is the geocoder's `parseFloat` field. `str` of a float is a `showReal` parameter.

The model follows the code as written:

- Days are capped at 15 from above only. They are never raised to 1.
- The geocoder returns `None` both for "not found" and for a failed request.
- A day beyond the data is a returned text, not an error.
- A message without a source is not checked.
- The supported-city list is joined with "、", not with newlines.
- The termination phrase and message limit are a separate condition, not part of the selector.

## Model

| member | source | states |
|---|---|---|
| Strings.Contains | weather_team.py:104 | Python's `sub in s`: nothing longer than a text is found in it, and every prefix of a text is |
| Strings.ContainsIff | weather_team.py:104 | the substring search used for "查询完成" in a text succeeds exactly when the phrase occurs at some index |
| Strings.ContainsPiece | weather_team.py:104 | a text built around the phrase contains it |
| Strings.ContainsWithin | mcp_server/weather_mcp_server.py:378 | a string found in a piece is found in any text built around that piece |
| Strings.Take | mcp_server/weather_mcp_server.py:220 | `date[:10]` is a prefix of length min(10, len) |
| Strings.Join | mcp_server/weather_mcp_server.py:311 | `sep.join(parts)` puts a separator only between two parts: no parts give "", one part gives itself; `JoinSplit` and `SplitJoin` make it the inverse of `split` |
| Strings.JoinStartsWithFirst | mcp_server/weather_mcp_server.py:311 | a joined text starts with its first part |
| Strings.JoinExcludes | mcp_server/weather_mcp_server.py:311 | a character absent from the separator and from every part is absent from the join |
| Strings.JoinContainsPart | mcp_server/weather_mcp_server.py:378 | every part occurs in the joined text |
| Strings.Split | mcp_server/weather_mcp_server.py:154 | `split(",")` always returns at least one piece, and no piece contains the separator |
| Strings.JoinSplit | mcp_server/weather_mcp_server.py:154 | joining the pieces of a split with the separator restores the string |
| Strings.SplitNoSeparator | mcp_server/weather_mcp_server.py:154 | a string without the separator splits into itself alone |
| Strings.SplitAppend | mcp_server/weather_mcp_server.py:191 | splitting at a separator between two pieces splits the pieces separately |
| Strings.SplitJoin | mcp_server/weather_mcp_server.py:247-253 | splitting a join of separator-free parts gives back exactly those parts |
| Strings.DigitChar | mcp_server/weather_mcp_server.py:249 | the digit character for d has code '0' + d |
| Strings.NatToString | mcp_server/weather_mcp_server.py:249-252 | `str(n)` of a natural number is non-empty decimal digits with no leading zero |
| Strings.IntToString | mcp_server/weather_mcp_server.py:249-252 | `str(n)` consists of digits and the minus sign only |
| Strings.DigitsValueOfNat | mcp_server/weather_mcp_server.py:249-252 | the digits of `str(n)` read back as n |
| Strings.IntToStringRoundTrip | mcp_server/weather_mcp_server.py:249-252 | `int(str(n)) == n` for every integer, negative ones included |
| Strings.IntToStringSingleLine | mcp_server/weather_mcp_server.py:249-252 | a printed integer never contains a newline |
| Strings.IntToStringInjective | mcp_server/weather_mcp_server.py:249-252 | two numbers that print the same are equal |
| Cities.TableOf | mcp_server/weather_mcp_server.py:48-86 | a name is a key of the dict built from the entries exactly when some entry carries it |
| Cities.TableOfKeepsLastEntry | mcp_server/weather_mcp_server.py:48-86 | an entry whose name no later entry repeats keeps its coordinate in the dict |
| Cities.CityNames | mcp_server/weather_mcp_server.py:377 | the key list has one name per entry, each a key, and lists every key |
| Cities.BeijingIsBuiltIn | mcp_server/weather_mcp_server.py:49 | "北京" is built in at (39.9042, 116.4074) |
| Sky.SkyLabel | mcp_server/weather_mcp_server.py:229 | a known code yields its label, and any other code is returned unchanged, never an error |
| Sky.SkyLabelPassesThroughExactlyUnknown | mcp_server/weather_mcp_server.py:89-110 | no label is itself a code, so the label equals the code exactly when the code is unknown |
| Geocoder.AcceptedLocation | mcp_server/weather_mcp_server.py:148-152 | a reply is accepted iff status is "1", count (default "0") is not "0", there is a first geocode, and its location is non-empty; the accepted text is that location |
| Geocoder.ParseLocation | mcp_server/weather_mcp_server.py:153-155 | a location parses iff it splits on "," into exactly two pieces that both parse; the first piece is the longitude and the second the latitude of the result |
| Geocoder.ParseLocationSwaps | mcp_server/weather_mcp_server.py:153-155 | "lon,lat" parses to the coordinate (lat, lon) when both pieces parse, and to nothing otherwise |
| Geocoder.ParseLocationNeedsOneComma | mcp_server/weather_mcp_server.py:154 | a parsed location is exactly two comma-free pieces around one comma |
| Geocoder.Resolve | mcp_server/weather_mcp_server.py:125-167 | order is table, then cache, then service. Table and cache hits issue no request and write nothing. The service is asked iff the name is in neither. Only a successful reply adds `city ↦ (lat, lon)`. Existing entries never change. Built-in names never enter the cache |
| Geocoder.ResolveAgainIsStable | mcp_server/weather_mcp_server.py:132-133 | after a successful lookup, the same string resolves to the same coordinate again. No request is made and the cache is unchanged, whatever the service would answer |
| Geocoder.ResolveBeijing | mcp_server/weather_mcp_server.py:128-129 | the default city resolves from the table with no request and no cache change |
| Geocoder.FailedLookupChangesNothing | mcp_server/weather_mcp_server.py:162-167 | a failed lookup (not found or exception) leaves the cache as it was, and only names outside table and cache can fail |
| Geocoder.AmapGeocoder.constructor | mcp_server/weather_mcp_server.py:115-119 | a new geocoder has an empty cache and satisfies the cache invariant |
| Geocoder.AmapGeocoder.GetCoordinates | mcp_server/weather_mcp_server.py:125-167 | the imperative lookup returns, and leaves in `coordCache`, exactly what `Resolve` specifies, and keeps the invariant |
| Forecast.DailyRequestFor | mcp_server/weather_mcp_server.py:190-192 | `dailysteps` is at most 15 and at most the requested days, and equals one of the two (an upper cap only) |
| Forecast.DailyRequestCarriesLongitudeFirst | mcp_server/weather_mcp_server.py:190-191 | the URL segment before "/daily" is "lon,lat"; read by the geocoder's own parser it gives back the coordinate the request was built from |
| Forecast.KmhToLevel | mcp_server/weather_mcp_server.py:258-283 | the level is in [0,12]; it is 0 iff below 1 km/h and 12 iff at least 118 km/h |
| Forecast.WindSpeedToLevel | mcp_server/weather_mcp_server.py:255-257 | the level of a speed in m/s (times 3.6) is in [0,12] |
| Forecast.ThresholdsReachedMonotone | mcp_server/weather_mcp_server.py:258-283 | counting reached thresholds is monotone in the value |
| Forecast.KmhLevelCountsThresholds | mcp_server/weather_mcp_server.py:258-283 | the if/elif ladder equals the number of thresholds 1, 6, 12, 20, 29, 39, 50, 62, 75, 89, 103, 118 reached |
| Forecast.WindLevelMonotone | mcp_server/weather_mcp_server.py:255-283 | a faster wind never gets a lower level |
| Forecast.ThresholdStartsLevel | mcp_server/weather_mcp_server.py:258-283 | threshold i is the first value of level i+1, and every value below it has level at most i |
| Forecast.ThresholdsBelow | mcp_server/weather_mcp_server.py:258-283 | a value below threshold i reaches at most i thresholds |
| Forecast.TemperatureTip | mcp_server/weather_mcp_server.py:289-295 | heat iff max ≥ 30; else cold iff min ≤ 5; else swing iff max − min > 15; else none (at most one) |
| Forecast.RainTip | mcp_server/weather_mcp_server.py:297-301 | rain gear iff > 70, umbrella iff in (30, 70], else none |
| Forecast.SkyTip | mcp_server/weather_mcp_server.py:303-309 | visibility iff the label has 雾 or 霾; else outdoor iff 晴; else snow iff 雪; no tip iff the label has none of the four |
| Forecast.SkyTipsOfKnownCodes | mcp_server/weather_mcp_server.py:303-309 | of the known codes, exactly the three hazes and fog warn about visibility. Exactly the two clear codes suggest going out, CLEAR_NIGHT included. Exactly the four snow codes warn about roads |
| Forecast.Tips | mcp_server/weather_mcp_server.py:287-309 | at most three tips, none exactly when no rule fires, each one of the eight rule sentences |
| Forecast.Advice | mcp_server/weather_mcp_server.py:311 | the advice is "天气适宜，祝您生活愉快" exactly when no rule fires: no join of tips can equal it |
| Forecast.WeatherTips | mcp_server/weather_mcp_server.py:285-311 | the list-building method yields the rule advice: the tips joined with "，" in the order temperature, rain, sky, or the default sentence |
| Forecast.AdviceHasNoNewline | mcp_server/weather_mcp_server.py:285-311 | advice is always a single line |
| Forecast.AdviceHotRainyClear | mcp_server/weather_mcp_server.py:289-307 | 32/20 °C, 80 %, "晴天" gives the heat, rain-gear and outdoor tips in that order |
| Forecast.AdviceMildCloudy | mcp_server/weather_mcp_server.py:311 | 18/17 °C, 10 %, "多云" gives the default sentence |
| Forecast.ReportLines | mcp_server/weather_mcp_server.py:247-253 | seven lines, each starting with its marker in the fixed order 📍, 🌤️, 🌡️, 💧, 💨, 🌧️, 💡 |
| Forecast.FormatDailyReport | mcp_server/weather_mcp_server.py:247-253 | a report is non-empty and starts with 📍 |
| Forecast.ReportSplitsIntoItsLines | mcp_server/weather_mcp_server.py:247-253 | splitting a report on newlines gives back exactly its seven lines, the first being "📍 city date" |
| Forecast.SkyLabelSingleLine | mcp_server/weather_mcp_server.py:229 | a label has a newline only if its unknown code does |
| Forecast.DayReportOf | mcp_server/weather_mcp_server.py:219-245 | the day's date is cut to 10 characters, the label is the sky lookup, and the wind level is in [0,12] |
| Forecast.FormatWeatherData | mcp_server/weather_mcp_server.py:208-253 | a status other than "ok" gives "❌ 获取{city}天气失败". A day beyond the temperature list gives "❌ 没有{city}第{day+1}天的天气数据". A day missing from another list raises IndexError. Otherwise the report. A result starts with 📍 iff it is a report, and with ❌ otherwise |
| Forecast.FormattedDayHasSevenLines | tests/test_mcp_server.py:266-278 | a formatted day splits into seven lines whose first is 📍, the city and the date |
| Tools.DailyWeather | mcp_server/weather_mcp_server.py:184-188 | the outcome is a body exactly when the city resolved and the request returned one; an unresolved city gives "不支持的城市：{city}", a failed request its exception text |
| Tools.GetDailyWeather | mcp_server/weather_mcp_server.py:184-192 | an unresolvable city raises "不支持的城市：{city}" and sends nothing. Otherwise the shaped request is sent and its outcome returned. The cache changes as `Resolve` says |
| Tools.TodayText | mcp_server/weather_mcp_server.py:319-328 | the reply is the day-0 report iff the body is ok and complete for day 0. Every other reply starts with ❌. A raised error becomes "❌ 查询{city}今天天气失败: {error}" |
| Tools.TomorrowText | mcp_server/weather_mcp_server.py:330-342 | the reply is the day-1 report iff the body is ok and complete for day 1. One temperature entry or none gives "❌ 获取{city}明天天气数据不足", even before the status is checked. Every other reply starts with ❌ |
| Tools.DayLine | mcp_server/weather_mcp_server.py:358-367 | each day line starts with "📅 " |
| Tools.DayLines | mcp_server/weather_mcp_server.py:357-367 | one line per day shown, in day order |
| Tools.DayCount | mcp_server/weather_mcp_server.py:357 | the number of days shown is at most the number of entries; 0 for a negative `days` (never raised to 1), and min(days, len) otherwise |
| Tools.FutureDaysReply | mcp_server/weather_mcp_server.py:349-373 | the reply starts with 📍 exactly when the body is ok and the sky list covers every day shown; every other reply starts with ❌ |
| Tools.FutureDaysText | mcp_server/weather_mcp_server.py:349-373 | the loop produces the header plus one line for each of the first min(days, len) days. A short sky list raises IndexError mid-loop, and the error becomes the failure text |
| Tools.FutureDaysSplitsIntoLines | mcp_server/weather_mcp_server.py:355-369 | the reply splits into the header followed by exactly min(days, len) lines starting with "📅 " |
| Tools.SupportedCitiesText | mcp_server/weather_mcp_server.py:375-379 | the reply starts with the heading "内置城市列表：" on its own line |
| Tools.SupportedCitiesNamesEveryCity | mcp_server/weather_mcp_server.py:375-379 | every built-in city is named in the supported-cities reply |
| Tools.CoordinatesText | mcp_server/weather_mcp_server.py:381-394 | the reply starts with 📍 iff the city resolved, and then ends with "坐标：lat,lon", latitude first; otherwise it is the not-found text |
| Tools.HandleQueryWeatherToday | mcp_server/weather_mcp_server.py:319-328 | the city defaults to "北京". A resolved city sends the request for one day and an unresolved one sends nothing. The reply is `TodayText` of the outcome, and the cache changes only as `Resolve` says |
| Tools.HandleQueryWeatherTomorrow | mcp_server/weather_mcp_server.py:330-342 | the city defaults to "北京". A resolved city sends the request for two days and an unresolved one sends nothing. The reply is `TomorrowText` of the outcome |
| Tools.HandleQueryWeatherFutureDays | mcp_server/weather_mcp_server.py:344-373 | the city defaults to "北京" and days to 3. A resolved city sends the request for that many days (capped at 15). The reply is the future-days text of the outcome |
| Tools.HandleGetCityCoordinates | mcp_server/weather_mcp_server.py:381-394 | the city defaults to "北京"; the reply is the coordinates text of the lookup |
| Tools.ToolReply | mcp_server/weather_mcp_server.py:488-502 | an unknown name gives "未知工具: {name}"; a known name gives its handler's text, which never starts like that |
| Tools.CallTool | mcp_server/weather_mcp_server.py:488-502 | the reply is `ToolReply` of the lookup and request outcome. The cache follows `Resolve` for the four handlers that look a city up, and is unchanged for "get_supported_cities" and for an unknown name |
| Team.AgentSelector | weather_team.py:76-100 | 0 or 1 messages give "intent_parser". After that, intent_parser is followed by weather_agent and weather_agent by formatter. Any other last source gives None. The result is always one of these four, and verbose only adds one printed line |
| Team.VerboseOnlyPrints | weather_team.py:76-100 | the verbose flag never changes the selection |
| Team.SelectionDependsOnLengthAndLastSource | weather_team.py:78-84 | the selection depends only on the history length and the last message's source |
| Team.Pipeline | weather_team.py:76-100 | the agents picked while each appends one message: at most one more than the replies, each one of the three stage names |
| Team.PipelineFromOpening | weather_team.py:76-100 | from one opening message, appending a message from each selected agent gives intent_parser, weather_agent, formatter, then None; no stage twice |
| Team.MentionsDone | weather_team.py:104 | `TextMentionTermination("查询完成")` holds exactly when the phrase occurs at some position of some message |
| Team.ShouldTerminate | weather_team.py:102-106 | the OR of the two conditions: 8 or more messages stop the conversation whatever they say, below 8 messages it stops exactly when some message mentions "查询完成", and an empty history never stops |
| Team.TerminationIsStable | weather_team.py:102-106 | once the stop condition holds, a further message does not undo it |
| Team.MentionStops | weather_team.py:104-106 | a message mentioning "查询完成" anywhere stops the conversation at any length |
| Team.NormalRunStaysBelowLimit | weather_team.py:105 | the normal four-message run is below the 8-message limit |
| Team.FinalAnswer | weather_team.py:127-133 | the answer is the last message's content, or "协作查询失败" when there are no messages |

## Left out

- Network transport is not modelled: httpx clients, timeouts, `raise_for_status`, JSON decoding. Each service's reply is an input (`GeocodeReply`, `FetchReply`).
- The forecast request's error branches are not modelled: the 429 branch, other HTTP errors and other exceptions. `FetchReply.Failed` carries the final exception text, whatever branch produced it.
- Python's `float` parsing and `str` of a float are parameters (`parseFloat`, `showReal`). `speed_ms * 3.6` is exact real arithmetic, not IEEE rounding.
- `int()` truncation of temperatures, and scaling probability and humidity by 100, are not modelled. The model takes whole degrees and whole percents as given.
- The geocoding request's query parameters (key, address, output) are not modelled. The API keys and base URLs come from the environment and, with the start-up `ValueError`, are configuration: the forecast side takes them as `ForecastConfig`.
- The MCP server, `list_tools` schemas and `main` are not modelled. Handlers return their one text, not a one-element `TextContent` list.
- `call_tool`'s `except` branch ("工具执行失败") has no counterpart: every modelled handler already returns text for every outcome.
- Python's negative indexing of `target_day` is not modelled: `FormatWeatherData` takes a natural day, and its only callers pass 0 and 1.
- A forecast body without `result`/`daily` keys is not modelled, whatever its status. `ForecastBody` always carries `daily`. The tomorrow handler reads `daily` before checking the status, so in the source a failed body without `result` gives "❌ 查询{city}明天天气失败: 'result'". The model has no such body: every modelled body, whatever its status, goes through the length check first, as in the source. More generally, decoded replies of either service with missing keys or values of the wrong JSON type are not modelled. `Daily` always carries all five lists (`temperature`, `skycon`, `precipitation`, `humidity`, `wind`), and every day entry has its `date`, `max`, `min`, `value`, `probability`, `avg` and `speed` with the right types. In the source, a missing one raises `KeyError` and a `null` number raises `TypeError`. The handlers then answer with the exception text, for example "❌ 查询{city}今天天气失败: 'skycon'". On the geocoding side, `GeocodeReply.count` is a string or absent. In the source, a JSON `null` or non-string `count` (including the number `0`) differs from "0" and so passes the check at line 148. The model treats an absent count as "0". Argument values of the wrong JSON type are not modelled either: `city` is a string and `days` an integer when present.
- `AmapGeocoder.close` and `WeatherAPI.close` are no-ops and are not modelled. `WeatherAPI.get_coordinates` only delegates to the global geocoder, which the model passes explicitly.
- Concurrency and sharing one geocoder between conversations are not modelled: lookups are sequential.
- The autogen framework is not modelled: `SelectorGroupChat`, `Console`, the OpenAI client, `initialize`/`__init__`, the demo. What the framework does after the selector answers `None` is not part of this model; `Pipeline` records only the selector's own choices.
- `MentionsDone`/`ShouldTerminate` are the OR of the two stop predicates as read from `TextMentionTermination | MaxMessageTermination`, not those classes' internals.
- A message without `.source` cannot occur in the model: `Message` always has a source.
- Team.AgentSelector: states only that exactly one progress line is printed when verbose and none otherwise, not the line's wording.
- weather_agents.py (prompt text and a lazily spawned tool subprocess), weather_cli.py (console I/O) and run_tests.py (test runner) are not part of this model.
- The `logger` calls are not modelled; they write to the log and change no result.
