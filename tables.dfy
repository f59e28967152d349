/**
 * The built-in city table (`CITY_COORDINATES`, mcp_server/weather_mcp_server.py:48-86)
 * and the sky-condition labels (`SKYCON_MAP`, lines 89-110).
 */
module Cities {

  /** A coordinate as the geocoder stores it: latitude first, longitude second. */
  datatype Coord = Coord(lat: real, lon: real)

  /** The 37 built-in cities, in the order the source's dict literal lists them. */
  const CityEntries: seq<(string, Coord)> := [
      ("北京", Coord(39.9042, 116.4074)),
      ("上海", Coord(31.2304, 121.4737)),
      ("广州", Coord(23.1291, 113.2644)),
      ("深圳", Coord(22.5431, 114.0579)),
      ("杭州", Coord(30.2741, 120.1551)),
      ("南京", Coord(32.0603, 118.7969)),
      ("武汉", Coord(30.5928, 114.3055)),
      ("成都", Coord(30.5728, 104.0668)),
      ("西安", Coord(34.3416, 108.9398)),
      ("重庆", Coord(29.5630, 106.5516)),
      ("天津", Coord(39.3434, 117.3616)),
      ("苏州", Coord(31.2989, 120.5853)),
      ("青岛", Coord(36.0671, 120.3826)),
      ("宁波", Coord(29.8683, 121.5440)),
      ("无锡", Coord(31.5912, 120.3019)),
      ("济南", Coord(36.6512, 117.1201)),
      ("大连", Coord(38.9140, 121.6147)),
      ("沈阳", Coord(41.8057, 123.4315)),
      ("长春", Coord(43.8171, 125.3235)),
      ("哈尔滨", Coord(45.8038, 126.5349)),
      ("福州", Coord(26.0745, 119.2965)),
      ("厦门", Coord(24.4798, 118.0894)),
      ("昆明", Coord(25.0389, 102.7183)),
      ("南昌", Coord(28.6820, 115.8581)),
      ("合肥", Coord(31.8669, 117.2741)),
      ("石家庄", Coord(38.0428, 114.5149)),
      ("太原", Coord(37.8706, 112.5489)),
      ("郑州", Coord(34.7466, 113.6254)),
      ("长沙", Coord(28.2282, 112.9388)),
      ("南宁", Coord(22.8170, 108.3669)),
      ("海口", Coord(20.0444, 110.1999)),
      ("贵阳", Coord(26.6470, 106.6302)),
      ("兰州", Coord(36.0611, 103.8343)),
      ("银川", Coord(38.4681, 106.2731)),
      ("西宁", Coord(36.6171, 101.7782)),
      ("乌鲁木齐", Coord(43.7793, 87.6177)),
      ("拉萨", Coord(29.6625, 91.1110))
    ]

  /** The map a Python dict literal builds from its entries: a later entry for a key replaces an earlier one. */
  function TableOf(entries: seq<(string, Coord)>): (table: map<string, Coord>)
    ensures forall name :: name in table <==> exists i :: 0 <= i < |entries| && entries[i].0 == name
    decreases |entries|
  {
    if |entries| == 0 then map[]
    else
      var last := entries[|entries| - 1];
      var init := entries[..|entries| - 1];
      assert forall i :: 0 <= i < |init| ==> init[i] == entries[i];
      TableOf(init)[last.0 := last.1]
  }

  /** An entry whose name no later entry repeats keeps its coordinate in the map. */
  lemma {:induction false} TableOfKeepsLastEntry(entries: seq<(string, Coord)>, i: nat)
    requires i < |entries|
    requires forall j :: i < j < |entries| ==> entries[j].0 != entries[i].0
    ensures entries[i].0 in TableOf(entries) && TableOf(entries)[entries[i].0] == entries[i].1
    decreases |entries|
  {
    if i < |entries| - 1 {
      var init := entries[..|entries| - 1];
      TableOfKeepsLastEntry(init, i);
    }
  }

  /** `CITY_COORDINATES`: city name to (latitude, longitude). */
  const CityCoordinates: map<string, Coord> := TableOf(CityEntries)

  /** `list(CITY_COORDINATES.keys())`: the names in insertion order. */
  function CityNames(): (names: seq<string>)
    ensures |names| == |CityEntries|
    ensures forall i :: 0 <= i < |names| ==> names[i] in CityCoordinates
    ensures forall name :: name in CityCoordinates ==> name in names
  {
    var names := seq(|CityEntries|, i requires 0 <= i < |CityEntries| => CityEntries[i].0);
    assert forall i :: 0 <= i < |CityEntries| ==> names[i] == CityEntries[i].0;
    names
  }

  /** Beijing, the tools' default city, is built in at (39.9042, 116.4074). */
  lemma BeijingIsBuiltIn()
    ensures "北京" in CityCoordinates && CityCoordinates["北京"] == Coord(39.9042, 116.4074)
  {
    assert CityEntries[0] == ("北京", Coord(39.9042, 116.4074));
    forall j | 0 < j < |CityEntries| ensures CityEntries[j].0 != "北京" {
      assert CityEntries[j].0[0] != '北' || CityEntries[j].0[1] != '京';
    }
    TableOfKeepsLastEntry(CityEntries, 0);
  }
}

module Sky {

  /** `SKYCON_MAP`: the forecast service's sky-condition codes and their Chinese labels. */
  const SkyconMap: map<string, string> := map[
      "CLEAR_DAY" := "晴天",
      "CLEAR_NIGHT" := "晴夜",
      "PARTLY_CLOUDY_DAY" := "多云",
      "PARTLY_CLOUDY_NIGHT" := "多云",
      "CLOUDY" := "阴天",
      "LIGHT_HAZE" := "轻度雾霾",
      "MODERATE_HAZE" := "中度雾霾",
      "HEAVY_HAZE" := "重度雾霾",
      "LIGHT_RAIN" := "小雨",
      "MODERATE_RAIN" := "中雨",
      "HEAVY_RAIN" := "大雨",
      "STORM_RAIN" := "暴雨",
      "FOG" := "雾",
      "LIGHT_SNOW" := "小雪",
      "MODERATE_SNOW" := "中雪",
      "HEAVY_SNOW" := "大雪",
      "STORM_SNOW" := "暴雪",
      "DUST" := "浮尘",
      "SAND" := "沙尘",
      "WIND" := "大风"
    ]

  /**
   * `SKYCON_MAP.get(code, code)`: the label of a known code, and the code
   * itself for any other; no code is rejected.
   */
  function SkyLabel(code: string): (desc: string)
    ensures code in SkyconMap ==> desc == SkyconMap[code]
    ensures code !in SkyconMap ==> desc == code
  {
    if code in SkyconMap then SkyconMap[code] else code
  }

  /** No label is itself a code, so a label equals its code exactly when the code is unknown. */
  lemma SkyLabelPassesThroughExactlyUnknown(code: string)
    ensures SkyLabel(code) == code <==> code !in SkyconMap
  {
    if code in SkyconMap {
      assert SkyconMap[code] !in SkyconMap;
    }
  }
}
