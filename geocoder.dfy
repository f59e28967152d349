/**
 * `AmapGeocoder` (mcp_server/weather_mcp_server.py:112-167): resolves a city
 * name through the built-in table, then its own cache, then the external
 * geocoding service, whose reply is an input of the model.
 */
module Geocoder {
  import opened Wrappers
  import opened Strings
  import opened Cities

  /**
   * What the geocoding request produced: the decoded JSON body (`status`,
   * `count`, and the `location` of each entry of `geocodes`, with `""` for an
   * entry that has none), or an exception raised by the HTTP call or the decoding.
   */
  datatype GeocodeReply =
    | Reply(status: Option<string>, count: Option<string>, locations: seq<string>)
    | Raised

  /** The location text of a reply the source accepts: status "1", a count other than "0", a non-empty first location. */
  function AcceptedLocation(reply: GeocodeReply): (loc: Option<string>)
    ensures loc.Some? <==>
      && reply.Reply?
      && reply.status == Some("1")
      && reply.count.GetOr("0") != "0"
      && |reply.locations| > 0
      && reply.locations[0] != ""
    ensures loc.Some? ==> loc.value == reply.locations[0]
  {
    match reply
    case Raised => None
    case Reply(status, count, locations) =>
      if status == Some("1") && count.GetOr("0") != "0" && |locations| > 0 && locations[0] != ""
      then Some(locations[0])
      else None
  }

  /**
   * `lon, lat = map(float, location.split(","))` followed by the swap to
   * `(lat, lon)`; a location that does not split into exactly two numbers
   * raises in the source, which the geocoder turns into "not found".
   * `parse` stands for Python's `float` on one piece.
   */
  function ParseLocation(loc: string, parse: string -> Option<real>): (coord: Option<Coord>)
    ensures var parts := Split(loc, ',');
            coord.Some? <==> |parts| == 2 && parse(parts[0]).Some? && parse(parts[1]).Some?
    ensures var parts := Split(loc, ',');
            coord.Some? ==> coord.value.lat == parse(parts[1]).value && coord.value.lon == parse(parts[0]).value
  {
    var parts := Split(loc, ',');
    if |parts| != 2 then None
    else
      match (parse(parts[0]), parse(parts[1]))
      case (Some(lon), Some(lat)) => Some(Coord(lat, lon))
      case _ => None
  }

  /** A "longitude,latitude" text parses to the coordinate with the two swapped. */
  lemma ParseLocationSwaps(lonText: string, latText: string, parse: string -> Option<real>)
    requires ',' !in lonText && ',' !in latText
    ensures ParseLocation(lonText + "," + latText, parse) ==
      if parse(lonText).Some? && parse(latText).Some?
      then Some(Coord(parse(latText).value, parse(lonText).value))
      else None
  {
    SplitJoin([lonText, latText], ',');
    assert Join([','], [lonText, latText]) == lonText + "," + latText;
  }

  /** A location with no comma, or more than one, is never accepted. */
  lemma ParseLocationNeedsOneComma(loc: string, parse: string -> Option<real>)
    requires ParseLocation(loc, parse).Some?
    ensures exists lonText, latText :: ',' !in lonText && ',' !in latText && loc == lonText + "," + latText
  {
    var parts := Split(loc, ',');
    JoinSplit(loc, ',');
    assert Join([','], parts) == parts[0] + "," + parts[1];
  }

  /** The coordinate the external path yields for a reply: accepted and parsed, or nothing. */
  function Located(reply: GeocodeReply, parse: string -> Option<real>): Option<Coord> {
    match AcceptedLocation(reply)
    case Some(loc) => ParseLocation(loc, parse)
    case None => None
  }

  /** The outcome of one lookup: the coordinate returned, the cache afterwards, and whether the service was asked. */
  datatype Resolution = Resolution(coord: Option<Coord>, cache: map<string, Coord>, queried: bool)

  /**
   * One call of `get_coordinates` from cache `cache`: the built-in table
   * first, the cache second, the service last; only a successful service
   * answer is written, under the literal input string.
   */
  function Resolve(cache: map<string, Coord>, city: string, reply: GeocodeReply, parse: string -> Option<real>): (res: Resolution)
    // lookup order
    ensures city in CityCoordinates ==> res == Resolution(Some(CityCoordinates[city]), cache, false)
    ensures city !in CityCoordinates && city in cache ==> res == Resolution(Some(cache[city]), cache, false)
    ensures res.queried <==> city !in CityCoordinates && city !in cache
    ensures res.queried ==> res.coord == Located(reply, parse)
    // the cache gains at most the queried city, and only on success
    ensures res.cache == if res.queried && res.coord.Some? then cache[city := res.coord.value] else cache
    // write-once: no existing entry changes
    ensures forall name :: name in cache ==> name in res.cache && res.cache[name] == cache[name]
    // built-in names never enter the cache
    ensures cache.Keys !! CityCoordinates.Keys ==> res.cache.Keys !! CityCoordinates.Keys
  {
    if city in CityCoordinates then Resolution(Some(CityCoordinates[city]), cache, false)
    else if city in cache then Resolution(Some(cache[city]), cache, false)
    else
      match Located(reply, parse)
      case Some(c) => Resolution(Some(c), cache[city := c], true)
      case None => Resolution(None, cache, true)
  }

  /**
   * Once a name has been resolved, asking again with the identical string
   * returns the same coordinate, without asking the service and without
   * changing the cache, whatever the service would now answer.
   */
  lemma ResolveAgainIsStable(cache: map<string, Coord>, city: string, first: GeocodeReply, second: GeocodeReply, parse: string -> Option<real>)
    requires Resolve(cache, city, first, parse).coord.Some?
    ensures var r1 := Resolve(cache, city, first, parse);
            Resolve(r1.cache, city, second, parse) == Resolution(r1.coord, r1.cache, false)
  {
  }

  /** The default city resolves from the table, with no request and no cache change, whatever the cache holds. */
  lemma ResolveBeijing(cache: map<string, Coord>, reply: GeocodeReply, parse: string -> Option<real>)
    ensures Resolve(cache, "北京", reply, parse) == Resolution(Some(Coord(39.9042, 116.4074)), cache, false)
  {
    BeijingIsBuiltIn();
  }

  /** Looking up a name that fails to resolve leaves everything as it was, so a later success is possible. */
  lemma FailedLookupChangesNothing(cache: map<string, Coord>, city: string, reply: GeocodeReply, parse: string -> Option<real>)
    requires Resolve(cache, city, reply, parse).coord.None?
    ensures Resolve(cache, city, reply, parse).cache == cache
    ensures city !in CityCoordinates && city !in cache
  {
  }

  /** The geocoder: the built-in table is shared, the cache is its own. */
  class AmapGeocoder {
    /** `self.coord_cache`: literal input string to (latitude, longitude). */
    var coordCache: map<string, Coord>
    /** Python's `float` applied to one piece of a location text. */
    const parseFloat: string -> Option<real>

    /** Built-in names are answered from the table, so they never reach the cache. */
    ghost predicate Valid()
      reads this
    {
      coordCache.Keys !! CityCoordinates.Keys
    }

    constructor (parseFloat: string -> Option<real>)
      ensures Valid()
      ensures coordCache == map[] && this.parseFloat == parseFloat
    {
      coordCache := map[];
      this.parseFloat := parseFloat;
    }

    /**
     * `get_coordinates(city_name)`. `reply` is what the service would answer;
     * `queried` tells whether the call reached the service at all.
     */
    method GetCoordinates(city: string, reply: GeocodeReply) returns (coord: Option<Coord>, queried: bool)
      requires Valid()
      modifies this`coordCache
      ensures Valid()
      ensures Resolution(coord, coordCache, queried) == Resolve(old(coordCache), city, reply, parseFloat)
    {
      if city in CityCoordinates {
        return Some(CityCoordinates[city]), false;
      }
      if city in coordCache {
        return Some(coordCache[city]), false;
      }
      queried := true;
      coord := None;
      if reply.Reply? && reply.status == Some("1") && reply.count.GetOr("0") != "0" {
        if |reply.locations| > 0 {
          var location := reply.locations[0];
          if location != "" {
            var parts := Split(location, ',');
            if |parts| == 2 {
              var lon := parseFloat(parts[0]);
              var lat := parseFloat(parts[1]);
              if lon.Some? && lat.Some? {
                coord := Some(Coord(lat.value, lon.value));
                coordCache := coordCache[city := coord.value];
              }
            }
          }
        }
      }
    }
  }
}
