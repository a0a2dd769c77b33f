/** The server's weather endpoint and its cache tables
    (weather_app/weather_api/views.py).

    The three tables the endpoint writes are sequences in primary-key order,
    so "the first matching row" is the one with the lowest index. Times are
    integers in microseconds; each read of the wall clock is a parameter of
    its own. The two upstream services are parameters too: the geocoder's
    answer is the list of coordinate pairs it returned, and the forecast
    service's answer either has a `current` object or lacks it. */
module WeatherCache {
  import opened Common

  /** One hour, in microseconds: the lifetime of a freshly cached entry. */
  const OneHour: int := 3_600_000_000

  /** Longest city name the endpoint accepts (the column holds 100). */
  const MaxCityLength: nat := 99

  /** Id of the user every request is attributed to: the endpoint looks up a
      fixed account instead of the caller. */
  const ActingUser: nat := 1

  datatype Coord = Coord(lat: real, lon: real)

  /** The `current` object of a forecast answer. */
  datatype Current = Current(temperature: real, humidity: int, windSpeed: real)

  /** The hourly series of a forecast answer, carried unchanged. */
  datatype Hourly = Hourly(time: seq<string>, temperature: seq<real>, humidity: seq<real>, windSpeed: seq<real>)

  /** A forecast service answer: `current` and `hourly` may each be missing. */
  datatype ForecastAnswer = ForecastAnswer(current: Option<Current>, hourly: Option<Hourly>)

  datatype CacheEntry = CacheEntry(
    city: string, coord: Coord, temperature: real, humidity: int, windSpeed: real,
    forecast: Hourly, expiry: int)

  datatype HistoryRow = HistoryRow(user: nat, city: string, coord: Coord)

  /** A request log row; the request URL is determined by the coordinates,
      so the coordinates stand for it. */
  datatype LogRow = LogRow(user: nat, city: string, coord: Coord, status: int, data: ForecastAnswer)

  datatype Tables = Tables(cache: seq<CacheEntry>, history: seq<HistoryRow>, logs: seq<LogRow>)

  /** What the endpoint answers. A missing `hourly` key raises inside the
      view, which the framework turns into a server error. */
  datatype WeatherReply =
    | FromCache(entry: CacheEntry)
    | Fetched(answer: ForecastAnswer)
    | CityNotFound
    | WeatherUnavailable
    | ServerError

  function Status(r: WeatherReply): int {
    match r
    case FromCache(_) => 200
    case Fetched(_) => 200
    case CityNotFound => 404
    case WeatherUnavailable => 404
    case ServerError => 500
  }

  /** The rows left after deleting every entry whose expiry is before `now`. */
  function PurgeExpired(s: seq<CacheEntry>, now: int): (r: seq<CacheEntry>)
    ensures |r| <= |s|
    ensures forall e :: e in r <==> e in s && e.expiry >= now
    ensures forall e: CacheEntry :: e.expiry >= now ==> multiset(r)[e] == multiset(s)[e]
    decreases |s|
  {
    if s == [] then []
    else
      var rest := PurgeExpired(s[1..], now);
      assert s == [s[0]] + s[1..];
      if s[0].expiry < now then rest else [s[0]] + rest
  }

  predicate Live(e: CacheEntry, city: string, now: int) {
    e.city == city && e.expiry > now
  }

  /** Index of the first entry for `city` that is still live at `now`. */
  function FirstLive(s: seq<CacheEntry>, city: string, now: int): (r: Option<nat>)
    ensures r.Some? ==> r.value < |s| && Live(s[r.value], city, now)
    ensures r.Some? ==> forall j :: 0 <= j < r.value ==> !Live(s[j], city, now)
    ensures r.None? ==> forall j :: 0 <= j < |s| ==> !Live(s[j], city, now)
    decreases |s|
  {
    if s == [] then None
    else if Live(s[0], city, now) then Some(0)
    else match FirstLive(s[1..], city, now)
      case None => None
      case Some(i) => Some(i + 1)
  }

  /** The entry `.filter(city, expiry > now).first()` returns. */
  function Served(s: seq<CacheEntry>, city: string, now: int): (r: Option<CacheEntry>)
    ensures r.Some? <==> exists i :: 0 <= i < |s| && Live(s[i], city, now)
    ensures r.Some? ==> r.value in s && Live(r.value, city, now)
    ensures r.Some? ==> exists i :: 0 <= i < |s| && s[i] == r.value && Live(s[i], city, now)
                                    && forall j :: 0 <= j < i ==> !Live(s[j], city, now)
  {
    match FirstLive(s, city, now)
    case None => None
    case Some(i) => Some(s[i])
  }

  /** The rows left after deleting every entry for `city`. */
  function WithoutCity(s: seq<CacheEntry>, city: string): (r: seq<CacheEntry>)
    ensures forall e :: e in r ==> e.city != city
    ensures forall e: CacheEntry :: e.city != city ==> multiset(r)[e] == multiset(s)[e]
    decreases |s|
  {
    if s == [] then []
    else
      var rest := WithoutCity(s[1..], city);
      assert s == [s[0]] + s[1..];
      if s[0].city == city then rest else [s[0]] + rest
  }

  /** The whole effect of one weather request on the tables, and its reply. */
  function GetWeatherSpec(t: Tables, city: string, tPurge: int, tLookup: int, tInsert: int,
                          geo: seq<Coord>, answer: ForecastAnswer): (res: (Tables, WeatherReply))
    ensures res.1.FromCache? ==> res.1.entry in t.cache && Live(res.1.entry, city, tLookup)
    ensures res.1.Fetched? ==> res.1.answer == answer && answer.current.Some? && answer.hourly.Some?
    ensures !res.1.Fetched? ==> res.0 == Tables(PurgeExpired(t.cache, tPurge), t.history, t.logs)
    ensures res.1.Fetched? ==>
      |res.0.cache| >= 1 && res.0.cache[..|res.0.cache| - 1] == PurgeExpired(t.cache, tPurge)
  {
    var cache := PurgeExpired(t.cache, tPurge);
    var purged := Tables(cache, t.history, t.logs);
    match Served(cache, city, tLookup)
    case Some(e) => (purged, FromCache(e))
    case None =>
      if geo == [] || city == "" || |city| > MaxCityLength then (purged, CityNotFound)
      else
        var coord := geo[|geo| - 1];
        if answer.current.None? then (purged, WeatherUnavailable)
        else if answer.hourly.None? then (purged, ServerError)
        else
          var cur := answer.current.value;
          var entry := CacheEntry(city, coord, cur.temperature, cur.humidity, cur.windSpeed,
                                  answer.hourly.value, tInsert + OneHour);
          (Tables(cache + [entry], t.history + [HistoryRow(ActingUser, city, coord)],
                  t.logs + [LogRow(ActingUser, city, coord, 200, answer)]),
           Fetched(answer))
  }

  /** The request as it is meant to behave: the same effect on the tables,
      but a fresh fetch answers with the record it has just cached, as a
      cache hit does, so every 200 reply is a cache record for the requested
      city that the tables hold. */
  function GetWeatherIntended(t: Tables, city: string, tPurge: int, tLookup: int, tInsert: int,
                              geo: seq<Coord>, answer: ForecastAnswer): (res: (Tables, WeatherReply))
    ensures res.0 == GetWeatherSpec(t, city, tPurge, tLookup, tInsert, geo, answer).0
    ensures Status(res.1) == Status(GetWeatherSpec(t, city, tPurge, tLookup, tInsert, geo, answer).1)
    ensures Status(res.1) == 200 ==> res.1.FromCache? && res.1.entry.city == city && res.1.entry in res.0.cache
    ensures Status(res.1) != 200 ==> res.1 == GetWeatherSpec(t, city, tPurge, tLookup, tInsert, geo, answer).1
    ensures GetWeatherSpec(t, city, tPurge, tLookup, tInsert, geo, answer).1.FromCache? ==>
      res.1 == GetWeatherSpec(t, city, tPurge, tLookup, tInsert, geo, answer).1
    ensures GetWeatherSpec(t, city, tPurge, tLookup, tInsert, geo, answer).1.Fetched? ==>
      |res.0.cache| >= 1 && res.1 == FromCache(res.0.cache[|res.0.cache| - 1])
  {
    var (t', r) := GetWeatherSpec(t, city, tPurge, tLookup, tInsert, geo, answer);
    if r.Fetched? then
      FetchAddsOneOfEach(t, city, tPurge, tLookup, tInsert, geo, answer);
      (t', FromCache(t'.cache[|t'.cache| - 1]))
    else (t', r)
  }

  /** As written, the first request for a city on an empty cache answers 200
      with the forecast service's own body, which is not a cache record. */
  lemma FreshFetchIsNotACacheRecord()
    ensures var answer := ForecastAnswer(Some(Current(20.0, 60, 3.0)), Some(Hourly([], [], [], [])));
      var (t', r) := GetWeatherSpec(Tables([], [], []), "Tokyo", 0, 0, 0, [Coord(35.7, 139.7)], answer);
      Status(r) == 200 && !r.FromCache?
  {
  }

  /** The database tables the endpoint touches, updated in place. */
  class WeatherDb {
    var cache: seq<CacheEntry>
    var history: seq<HistoryRow>
    var logs: seq<LogRow>

    function State(): Tables
      reads this
    {
      Tables(cache, history, logs)
    }

    constructor (t: Tables)
      ensures State() == t
    {
      cache, history, logs := t.cache, t.history, t.logs;
    }

    /** GET weather/<city>: purge, look up, geocode, fetch, insert, log. A
        fresh fetch answers with the record it has just cached (see
        `GetWeatherIntended`). */
    method GetWeather(city: string, tPurge: int, tLookup: int, tInsert: int,
                      geo: seq<Coord>, answer: ForecastAnswer) returns (reply: WeatherReply)
      modifies this
      ensures (State(), reply) == GetWeatherIntended(old(State()), city, tPurge, tLookup, tInsert, geo, answer)
    {
      cache := PurgeExpired(cache, tPurge);

      var hit := Served(cache, city, tLookup);
      if hit.Some? {
        return FromCache(hit.value);
      }

      if geo == [] || city == "" || |city| > MaxCityLength {
        return CityNotFound;
      }
      var coord := geo[|geo| - 1];

      if answer.current.None? {
        return WeatherUnavailable;
      }
      if answer.hourly.None? {
        return ServerError;
      }

      var cur := answer.current.value;
      cache := cache + [CacheEntry(city, coord, cur.temperature, cur.humidity, cur.windSpeed,
                                   answer.hourly.value, tInsert + OneHour)];
      history := history + [HistoryRow(ActingUser, city, coord)];
      logs := logs + [LogRow(ActingUser, city, coord, 200, answer)];
      reply := FromCache(cache[|cache| - 1]);
    }

    /** DELETE weather/cache/: empties the cache table. */
    method DeleteAllCache()
      modifies this
      ensures cache == [] && history == old(history) && logs == old(logs)
    {
      cache := [];
    }

    /** DELETE weather/cache/<city>: deletes that city's cache rows. */
    method DeleteCityCache(city: string)
      modifies this
      ensures cache == WithoutCity(old(cache), city)
      ensures history == old(history) && logs == old(logs)
    {
      cache := WithoutCity(cache, city);
    }
  }

  // ---------------------------------------------------------------------
  // Properties of the request

  /** Purging at one instant does not change which entry a lookup at the same
      or a later instant serves: the purge removes only rows that are not live. */
  lemma {:induction false} PurgeKeepsServedEntry(s: seq<CacheEntry>, city: string, tPurge: int, tLookup: int)
    requires tPurge <= tLookup
    ensures Served(PurgeExpired(s, tPurge), city, tLookup) == Served(s, city, tLookup)
    decreases |s|
  {
    if s != [] {
      var p := PurgeExpired(s, tPurge);
      var p1 := PurgeExpired(s[1..], tPurge);
      PurgeKeepsServedEntry(s[1..], city, tPurge, tLookup);
      ServedCons(s, city, tLookup);
      if s[0].expiry < tPurge {
        assert p == p1;
      } else {
        assert p == [s[0]] + p1;
        assert p[1..] == p1;
        ServedCons(p, city, tLookup);
      }
    }
  }

  /** How a lookup proceeds past the first row. */
  lemma ServedCons(s: seq<CacheEntry>, city: string, now: int)
    requires s != []
    ensures Served(s, city, now) == if Live(s[0], city, now) then Some(s[0]) else Served(s[1..], city, now)
  {
  }

  /** An entry that expires exactly at the purge instant survives the purge,
      yet a lookup at that instant never serves it. */
  lemma ExpiringNowSurvivesButIsNotServed(s: seq<CacheEntry>, e: CacheEntry, now: int)
    requires e in s && e.expiry == now
    ensures e in PurgeExpired(s, now)
    ensures var p := PurgeExpired(s, now);
      Served(p, e.city, now) != Some(e)
  {
  }

  /** A live cached entry is served and no row is added to any table; when
      the purge reads the clock first, the entry served is the first live
      row of the table as it was before the request. */
  lemma CacheHitAddsNothing(t: Tables, city: string, tPurge: int, tLookup: int, tInsert: int,
                            geo: seq<Coord>, answer: ForecastAnswer)
    requires Served(PurgeExpired(t.cache, tPurge), city, tLookup).Some?
    ensures var (t', r) := GetWeatherSpec(t, city, tPurge, tLookup, tInsert, geo, answer);
      && r.FromCache? && Status(r) == 200
      && Live(r.entry, city, tLookup) && r.entry in t.cache
      && t'.cache == PurgeExpired(t.cache, tPurge)
      && t'.history == t.history && t'.logs == t.logs
      && (tPurge <= tLookup ==> Some(r.entry) == Served(t.cache, city, tLookup))
  {
    if tPurge <= tLookup {
      PurgeKeepsServedEntry(t.cache, city, tPurge, tLookup);
    }
  }

  /** With no live entry, an empty or over-long city name or an empty geocoder
      answer is a 404 'City not found', and no row is added. */
  lemma CityNotFoundAddsNothing(t: Tables, city: string, tPurge: int, tLookup: int, tInsert: int,
                                geo: seq<Coord>, answer: ForecastAnswer)
    requires Served(PurgeExpired(t.cache, tPurge), city, tLookup).None?
    ensures var (t', r) := GetWeatherSpec(t, city, tPurge, tLookup, tInsert, geo, answer);
      (r == CityNotFound <==> geo == [] || city == "" || |city| > MaxCityLength)
      && (r == CityNotFound ==> Status(r) == 404 && t'.cache == PurgeExpired(t.cache, tPurge)
                                && t'.history == t.history && t'.logs == t.logs)
  {
  }

  /** A forecast answer without `current` is a 404 and nothing is inserted. */
  lemma MissingCurrentAddsNothing(t: Tables, city: string, tPurge: int, tLookup: int, tInsert: int,
                                  geo: seq<Coord>, answer: ForecastAnswer)
    requires Served(PurgeExpired(t.cache, tPurge), city, tLookup).None?
    requires geo != [] && city != "" && |city| <= MaxCityLength
    requires answer.current.None?
    ensures var (t', r) := GetWeatherSpec(t, city, tPurge, tLookup, tInsert, geo, answer);
      r == WeatherUnavailable && Status(r) == 404
      && t'.cache == PurgeExpired(t.cache, tPurge) && t'.history == t.history && t'.logs == t.logs
  {
  }

  /** A successful fetch adds exactly one cache entry (expiring an hour after
      the insert instant), one history row and one log row with status 200,
      all for the requested city and the coordinates of the last geocoder
      result. */
  lemma FetchAddsOneOfEach(t: Tables, city: string, tPurge: int, tLookup: int, tInsert: int,
                           geo: seq<Coord>, answer: ForecastAnswer)
    ensures var (t', r) := GetWeatherSpec(t, city, tPurge, tLookup, tInsert, geo, answer);
      r.Fetched? <==>
        (&& Served(PurgeExpired(t.cache, tPurge), city, tLookup).None?
         && geo != [] && city != "" && |city| <= MaxCityLength
         && answer.current.Some? && answer.hourly.Some?)
    ensures var (t', r) := GetWeatherSpec(t, city, tPurge, tLookup, tInsert, geo, answer);
      r.Fetched? ==>
        var coord := geo[|geo| - 1];
        && Status(r) == 200 && r.answer == answer
        && |t'.cache| == |PurgeExpired(t.cache, tPurge)| + 1
        && t'.cache[..|t'.cache| - 1] == PurgeExpired(t.cache, tPurge)
        && (var e := t'.cache[|t'.cache| - 1];
            e.city == city && e.coord == coord && e.expiry == tInsert + OneHour
            && e.temperature == answer.current.value.temperature
            && e.forecast == answer.hourly.value)
        && t'.history == t.history + [HistoryRow(ActingUser, city, coord)]
        && t'.logs == t.logs + [LogRow(ActingUser, city, coord, 200, answer)]
  {
  }

  /** Whatever the outcome, the purge has happened and the history and log
      tables gain a row only on a successful fetch. */
  lemma RowsAddedOnlyOnFetch(t: Tables, city: string, tPurge: int, tLookup: int, tInsert: int,
                             geo: seq<Coord>, answer: ForecastAnswer)
    ensures var (t', r) := GetWeatherSpec(t, city, tPurge, tLookup, tInsert, geo, answer);
      && (forall e :: e in t.cache && e.expiry < tPurge && !r.Fetched? ==> e !in t'.cache)
      && (!r.Fetched? ==> t'.history == t.history && t'.logs == t.logs)
      && (r.Fetched? ==> |t'.history| == |t.history| + 1 && |t'.logs| == |t.logs| + 1)
  {
  }

  /** Deleting one city's cache does not change which entry any other city
      is served, at any instant. */
  lemma {:induction false} WithoutCityKeepsOtherLookups(s: seq<CacheEntry>, city: string, other: string, now: int)
    requires other != city
    ensures Served(WithoutCity(s, city), other, now) == Served(s, other, now)
    decreases |s|
  {
    if s != [] {
      var p := WithoutCity(s, city);
      var p1 := WithoutCity(s[1..], city);
      WithoutCityKeepsOtherLookups(s[1..], city, other, now);
      ServedCons(s, other, now);
      if s[0].city == city {
        assert p == p1;
      } else {
        assert p == [s[0]] + p1;
        assert p[1..] == p1;
        ServedCons(p, other, now);
      }
    }
  }
}
