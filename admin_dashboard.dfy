/** The administrator's dashboard (weather_front/app/admin/page.tsx): the
    role gate, the paginated request log, and the reductions behind its
    charts. */
module AdminDashboard {
  import opened Common
  import opened Client

  const ItemsPerPage: nat := 10

  /** The fields of a request-log record the page reads. */
  datatype LogView = LogView(id: int, user: Option<int>, city: string, status: int)

  /** The fields of a user record the page reads. */
  datatype UserView = UserView(temperatureUnit: int, windSpeedUnit: int)

  /** Body of a successful role request; `role` may be missing. */
  datatype RoleData = RoleData(role: Option<string>)

  const AdminRole: string := "admin"
  const LogsError: string := "Failed to fetch API logs"
  const UsersError: string := "Failed to fetch users"
  const ClearCacheError: string := "Failed to clear cache"
  const ClearCityCacheError: string := "Failed to clear cache for city"
  const CacheClearedAlert: string := "Cache cleared successfully"

  function Min(a: int, b: int): int { if a <= b then a else b }

  // ---------------------------------------------------------------------
  // Pagination

  /** `Math.ceil(n / itemsPerPage)`. */
  function TotalPages(n: nat): (r: nat)
    ensures r == 0 <==> n == 0
    ensures r * ItemsPerPage >= n
    ensures n > 0 ==> (r - 1) * ItemsPerPage < n
  {
    (n + ItemsPerPage - 1) / ItemsPerPage
  }

  /** How `Array.prototype.slice` resolves one index against a length: a
      negative index counts from the end, and the result is clamped. */
  function SliceIndex(x: int, len: nat): (r: nat)
    ensures r <= len
  {
    if x < 0 then (if len + x < 0 then 0 else len + x)
    else if x > len then len
    else x
  }

  /** `s.slice(start, end)`. */
  function JsSlice<T>(s: seq<T>, start: int, end: int): seq<T> {
    var from, to := SliceIndex(start, |s|), SliceIndex(end, |s|);
    if from < to then s[from..to] else []
  }

  /** The logs shown on page `page` (1-based). */
  function PageOf(logs: seq<LogView>, page: int): (r: seq<LogView>)
    ensures |r| <= ItemsPerPage
    ensures forall x :: x in r ==> x in logs
  {
    JsSlice(logs, (page - 1) * ItemsPerPage, page * ItemsPerPage)
  }

  /** The Previous button's update. */
  function PrevPage(page: int): (r: int)
    ensures r >= 1
    ensures page > 1 ==> r == page - 1
    ensures page <= 1 ==> r == 1
  {
    if page - 1 >= 1 then page - 1 else 1
  }

  /** The Next button's update. */
  function NextPage(page: int, total: nat): (r: int)
    ensures r <= total
    ensures page < total ==> r == page + 1
    ensures page >= total ==> r == total
  {
    if page + 1 <= total then page + 1 else total
  }

  /** Page `p` holds exactly the logs at indices [(p-1)*10, min(p*10, len)),
      in order; a page past the end is empty. */
  lemma PageContents(logs: seq<LogView>, p: int)
    requires p >= 1
    ensures (p - 1) * ItemsPerPage < |logs| ==>
      PageOf(logs, p) == logs[(p - 1) * ItemsPerPage .. Min(p * ItemsPerPage, |logs|)]
    ensures (p - 1) * ItemsPerPage >= |logs| ==> PageOf(logs, p) == []
    ensures |PageOf(logs, p)| <= ItemsPerPage
  {
  }

  /** Page 0, which Next reaches when there are no pages, is empty. */
  lemma PageZeroIsEmpty(logs: seq<LogView>)
    ensures PageOf(logs, 0) == []
  {
  }

  /** With no logs there are no pages: Next from the first page lands on
      page 0, which shows nothing, and Previous from there returns to 1. */
  lemma NextWithNoLogsLandsOnEmptyPage(logs: seq<LogView>)
    requires logs == []
    ensures NextPage(1, TotalPages(|logs|)) == 0
    ensures PageOf(logs, NextPage(1, TotalPages(|logs|))) == []
    ensures PrevPage(NextPage(1, TotalPages(|logs|))) == 1
  {
  }

  /** Pages 1 to k, one after the other. */
  ghost function Pages(logs: seq<LogView>, k: nat): seq<LogView> {
    if k == 0 then [] else Pages(logs, k - 1) + PageOf(logs, k)
  }

  lemma {:induction false} PagesArePrefix(logs: seq<LogView>, k: nat)
    ensures Pages(logs, k) == logs[..Min(k * ItemsPerPage, |logs|)]
  {
    if k > 0 {
      PagesArePrefix(logs, k - 1);
      PageContents(logs, k);
      var lo, hi := Min((k - 1) * ItemsPerPage, |logs|), Min(k * ItemsPerPage, |logs|);
      if (k - 1) * ItemsPerPage < |logs| {
        assert logs[..lo] + logs[lo..hi] == logs[..hi];
      }
    }
  }

  /** The pages 1..totalPages partition the log list: read in order they
      give back every log exactly once, and no page is empty. */
  lemma PagesPartitionLogs(logs: seq<LogView>)
    ensures Pages(logs, TotalPages(|logs|)) == logs
    ensures forall p :: 1 <= p <= TotalPages(|logs|) ==> PageOf(logs, p) != []
  {
    PagesArePrefix(logs, TotalPages(|logs|));
    forall p | 1 <= p <= TotalPages(|logs|)
      ensures PageOf(logs, p) != []
    {
      PageContents(logs, p);
    }
  }

  // ---------------------------------------------------------------------
  // Chart reductions

  /** `apiLogs.map(log => log.city_name)`. */
  function Cities(logs: seq<LogView>): (r: seq<string>)
    ensures |r| == |logs| && forall i :: 0 <= i < |logs| ==> r[i] == logs[i].city
  {
    seq(|logs|, i requires 0 <= i < |logs| => logs[i].city)
  }

  /** Sum of a map's values. */
  ghost function MapSum(m: map<string, nat>): nat
    decreases |m|
  {
    if m == map[] then 0
    else
      var k :| k in m;
      assert |m - {k}| < |m| by { assert m.Keys - {k} < m.Keys; }
      m[k] + MapSum(m - {k})
  }

  lemma {:induction false} MapSumRemove(m: map<string, nat>, k: string)
    requires k in m
    ensures MapSum(m) == m[k] + MapSum(m - {k})
    decreases |m|
  {
    var j :| j in m && MapSum(m) == m[j] + MapSum(m - {j});
    if j != k {
      assert |m - {j}| < |m| by { assert (m - {j}).Keys < m.Keys; }
      assert |m - {k}| < |m| by { assert (m - {k}).Keys < m.Keys; }
      MapSumRemove(m - {j}, k);
      MapSumRemove(m - {k}, j);
      assert m - {j} - {k} == m - {k} - {j};
    }
  }

  lemma MapSumStore(m: map<string, nat>, k: string, v: nat)
    ensures MapSum(m[k := v]) + (if k in m then m[k] else 0) == MapSum(m) + v
  {
    MapSumRemove(m[k := v], k);
    assert m[k := v] - {k} == m - {k};
    if k in m {
      MapSumRemove(m, k);
    } else {
      assert m - {k} == m;
    }
  }

  /** The accumulator `cityFrequency` builds over `cities`, one city at a
      time: `acc[city] = (acc[city] || 0) + 1`. */
  function Frequencies(cities: seq<string>): (r: map<string, nat>)
    ensures forall c :: c in r ==> r[c] >= 1
    decreases |cities|
  {
    if cities == [] then map[]
    else
      var acc := Frequencies(cities[..|cities| - 1]);
      var city := cities[|cities| - 1];
      acc[city := (if city in acc then acc[city] else 0) + 1]
  }

  /** Every key is a city seen, its count is that city's number of
      occurrences, and the counts add up to the number of cities. */
  lemma {:induction false} FrequenciesCount(cities: seq<string>)
    ensures Frequencies(cities).Keys == set c | c in cities
    ensures forall c :: c in Frequencies(cities) ==> Frequencies(cities)[c] == Count(cities, c)
    ensures MapSum(Frequencies(cities)) == |cities|
    decreases |cities|
  {
    if cities != [] {
      var init, city := cities[..|cities| - 1], cities[|cities| - 1];
      var acc := Frequencies(init);
      FrequenciesCount(init);
      assert cities == init + [city];
      MapSumStore(acc, city, (if city in acc then acc[city] else 0) + 1);
      forall c | c in Frequencies(cities) ensures Frequencies(cities)[c] == Count(cities, c) {
        CountSnoc(init, city, c);
        if c != city {
          assert c in acc;
        } else if city !in acc {
          CountBound(init, city);
        }
      }
    }
  }

  /** `cityFrequency`: one key per city seen in the logs, counting its
      occurrences; the counts add up to the number of logs. */
  method CityFrequency(logs: seq<LogView>) returns (freq: map<string, nat>)
    ensures freq.Keys == set c | c in Cities(logs)
    ensures forall c :: c in freq ==> freq[c] == Count(Cities(logs), c)
    ensures MapSum(freq) == |logs|
  {
    var cities := Cities(logs);
    freq := map[];
    for i := 0 to |cities|
      invariant freq == Frequencies(cities[..i])
    {
      var city := cities[i];
      assert cities[..i + 1][..i] == cities[..i];
      freq := freq[city := (if city in freq then freq[city] else 0) + 1];
    }
    assert cities[..|cities|] == cities;
    FrequenciesCount(cities);
  }

  datatype UnitKind = TemperatureUnit | WindSpeedUnit

  function UnitOf(u: UserView, kind: UnitKind): int {
    match kind
    case TemperatureUnit => u.temperatureUnit
    case WindSpeedUnit => u.windSpeedUnit
  }

  function Units(users: seq<UserView>, kind: UnitKind): (r: seq<int>)
    ensures |r| == |users| && forall i :: 0 <= i < |users| ==> r[i] == UnitOf(users[i], kind)
  {
    seq(|users|, i requires 0 <= i < |users| => UnitOf(users[i], kind))
  }

  /** Number of unit values that are neither 0 nor 1. */
  function Strays(units: seq<int>): nat
    decreases |units|
  {
    if units == [] then 0
    else Strays(units[..|units| - 1]) + (if units[|units| - 1] in {0, 1} then 0 else 1)
  }

  lemma {:induction false} BucketsCoverUnits(units: seq<int>)
    ensures Count(units, 0) + Count(units, 1) + Strays(units) == |units|
    ensures Strays(units) == 0 <==> forall i :: 0 <= i < |units| ==> units[i] in {0, 1}
    decreases |units|
  {
    if units != [] {
      var init := units[..|units| - 1];
      BucketsCoverUnits(init);
      assert forall i :: 0 <= i < |init| ==> init[i] == units[i];
    }
  }

  /** The temperature or wind-speed preference tally: bucket i counts the
      users whose unit is i. A unit outside {0, 1} lands in neither bucket
      (the page writes NaN at that index instead); when every unit is 0 or
      1 the two buckets add up to the number of users. */
  method PreferenceTally(users: seq<UserView>, kind: UnitKind) returns (buckets: seq<nat>, strays: nat)
    ensures |buckets| == 2
    ensures buckets[0] == Count(Units(users, kind), 0) && buckets[1] == Count(Units(users, kind), 1)
    ensures buckets[0] + buckets[1] + strays == |users|
    ensures (forall i :: 0 <= i < |users| ==> UnitOf(users[i], kind) in {0, 1}) <==> strays == 0
  {
    var units := Units(users, kind);
    var acc := new nat[2];
    acc[0], acc[1] := 0, 0;
    strays := 0;
    for i := 0 to |units|
      invariant acc[0] == Count(units[..i], 0) && acc[1] == Count(units[..i], 1)
      invariant strays == Strays(units[..i])
    {
      var u := units[i];
      assert units[..i + 1] == units[..i] + [u];
      assert units[..i + 1][..i] == units[..i];
      CountSnoc(units[..i], u, 0);
      CountSnoc(units[..i], u, 1);
      if u == 0 || u == 1 {
        acc[u] := acc[u] + 1;
      } else {
        strays := strays + 1;
      }
    }
    assert units[..|units|] == units;
    BucketsCoverUnits(units);
    buckets := acc[..];
  }

  // ---------------------------------------------------------------------
  // The page

  class AdminPage {
    const browser: Browser
    var role: Option<string>
    var apiLogs: seq<LogView>
    var users: seq<UserView>
    var error: Option<string>
    var currentPage: int

    constructor (browser: Browser)
      ensures this.browser == browser
      ensures role == None && apiLogs == [] && users == [] && error == None && currentPage == 1
    {
      this.browser := browser;
      role, apiLogs, users, error, currentPage := None, [], [], None, 1;
    }

    /** The logs on the current page. */
    function Page(): seq<LogView>
      reads this
    {
      PageOf(apiLogs, currentPage)
    }

    /** The role gate, run when the page mounts. */
    method CheckRole(reply: Reply<RoleData>)
      modifies this, browser
      ensures apiLogs == old(apiLogs) && users == old(users) && error == old(error)
      ensures currentPage == old(currentPage)
      ensures browser.token == old(browser.token) && browser.alerts == old(browser.alerts)
      ensures !HasToken(browser.token) ==>
        && role == old(role) && browser.sent == old(browser.sent)
        && browser.navigations == old(browser.navigations) + [LoginRoute]
      ensures HasToken(browser.token) ==>
        && browser.sent == old(browser.sent) + [Get(RoleEndpoint, browser.token.value)]
        && match reply
           case Success(data) =>
             if data.role == Some(AdminRole) then
               role == Some(AdminRole) && browser.navigations == old(browser.navigations)
             else
               role == old(role) && browser.navigations == old(browser.navigations) + [DashboardRoute]
           case Failure(_) =>
             role == old(role) && browser.navigations == old(browser.navigations) + [LoginRoute]
    {
      var token := browser.token;
      if !HasToken(token) {
        browser.navigations := browser.navigations + [LoginRoute];
        return;
      }
      browser.sent := browser.sent + [Get(RoleEndpoint, token.value)];
      match reply {
        case Success(data) =>
          if data.role != Some(AdminRole) {
            browser.navigations := browser.navigations + [DashboardRoute];
          } else {
            role := Some(AdminRole);
          }
        case Failure(_) =>
          browser.navigations := browser.navigations + [LoginRoute];
      }
    }

    /** The log fetch, run on mount and whenever `role` changes. */
    method LoadLogs(reply: Reply<seq<LogView>>)
      modifies this, browser
      ensures role == old(role) && users == old(users) && currentPage == old(currentPage)
      ensures browser.token == old(browser.token) && browser.navigations == old(browser.navigations)
      ensures browser.alerts == old(browser.alerts)
      ensures !(HasToken(browser.token) && role == Some(AdminRole)) ==>
        browser.sent == old(browser.sent) && apiLogs == old(apiLogs) && error == old(error)
      ensures HasToken(browser.token) && role == Some(AdminRole) ==>
        && browser.sent == old(browser.sent) + [Get(ApiLogsEndpoint, browser.token.value)]
        && (reply.Success? ==> apiLogs == reply.data && error == old(error))
        && (reply.Failure? ==> apiLogs == old(apiLogs) && error == Some(LogsError))
    {
      var token := browser.token;
      if !HasToken(token) || role != Some(AdminRole) {
        return;
      }
      browser.sent := browser.sent + [Get(ApiLogsEndpoint, token.value)];
      match reply {
        case Success(data) => apiLogs := data;
        case Failure(_) => error := Some(LogsError);
      }
    }

    /** The user fetch, run on mount and whenever `role` changes. */
    method LoadUsers(reply: Reply<seq<UserView>>)
      modifies this, browser
      ensures role == old(role) && apiLogs == old(apiLogs) && currentPage == old(currentPage)
      ensures browser.token == old(browser.token) && browser.navigations == old(browser.navigations)
      ensures browser.alerts == old(browser.alerts)
      ensures !(HasToken(browser.token) && role == Some(AdminRole)) ==>
        browser.sent == old(browser.sent) && users == old(users) && error == old(error)
      ensures HasToken(browser.token) && role == Some(AdminRole) ==>
        && browser.sent == old(browser.sent) + [Get(UsersEndpoint, browser.token.value)]
        && (reply.Success? ==> users == reply.data && error == old(error))
        && (reply.Failure? ==> users == old(users) && error == Some(UsersError))
    {
      var token := browser.token;
      if role == Some(AdminRole) && HasToken(token) {
        browser.sent := browser.sent + [Get(UsersEndpoint, token.value)];
        match reply {
          case Success(data) => users := data;
          case Failure(_) => error := Some(UsersError);
        }
      }
    }

    /** The "clear all cache" handler. The page defines it but no control
        of the page calls it. */
    method ClearCache(reply: Reply<()>)
      modifies this, browser
      ensures role == old(role) && apiLogs == old(apiLogs) && users == old(users)
      ensures currentPage == old(currentPage)
      ensures browser.token == old(browser.token) && browser.navigations == old(browser.navigations)
      ensures !HasToken(browser.token) ==>
        browser.sent == old(browser.sent) && browser.alerts == old(browser.alerts) && error == old(error)
      ensures HasToken(browser.token) ==>
        && browser.sent == old(browser.sent) + [Delete(CacheEndpoint, browser.token.value)]
        && (reply.Success? ==> browser.alerts == old(browser.alerts) + [CacheClearedAlert] && error == old(error))
        && (reply.Failure? ==> browser.alerts == old(browser.alerts) && error == Some(ClearCacheError))
    {
      var token := browser.token;
      if !HasToken(token) {
        return;
      }
      browser.sent := browser.sent + [Delete(CacheEndpoint, token.value)];
      if reply.Success? {
        browser.alerts := browser.alerts + [CacheClearedAlert];
      } else {
        error := Some(ClearCacheError);
      }
    }

    /** The "clear one city's cache" handler. The page defines it but no
        control of the page calls it. */
    method ClearCityCache(city: string, reply: Reply<()>)
      modifies this, browser
      ensures role == old(role) && apiLogs == old(apiLogs) && users == old(users)
      ensures currentPage == old(currentPage)
      ensures browser.token == old(browser.token) && browser.navigations == old(browser.navigations)
      ensures !HasToken(browser.token) ==>
        browser.sent == old(browser.sent) && browser.alerts == old(browser.alerts) && error == old(error)
      ensures HasToken(browser.token) ==>
        && browser.sent == old(browser.sent) + [Delete(CityCacheEndpoint(city), browser.token.value)]
        && (reply.Success? ==>
              browser.alerts == old(browser.alerts) + ["Cache for " + city + " cleared successfully"]
              && error == old(error))
        && (reply.Failure? ==> browser.alerts == old(browser.alerts) && error == Some(ClearCityCacheError))
    {
      var token := browser.token;
      if !HasToken(token) {
        return;
      }
      browser.sent := browser.sent + [Delete(CityCacheEndpoint(city), token.value)];
      if reply.Success? {
        browser.alerts := browser.alerts + ["Cache for " + city + " cleared successfully"];
      } else {
        error := Some(ClearCityCacheError);
      }
    }

    /** The Previous button; it is disabled on page 1. */
    method Previous()
      modifies this
      ensures role == old(role) && apiLogs == old(apiLogs) && users == old(users) && error == old(error)
      ensures currentPage == if old(currentPage) == 1 then 1 else PrevPage(old(currentPage))
      ensures currentPage >= 1
    {
      if currentPage != 1 {
        currentPage := PrevPage(currentPage);
      }
    }

    /** The Next button; it is disabled on the last page. */
    method Next()
      modifies this
      ensures role == old(role) && apiLogs == old(apiLogs) && users == old(users) && error == old(error)
      ensures var total := TotalPages(|apiLogs|);
        currentPage == if old(currentPage) == total then total else NextPage(old(currentPage), total)
      ensures currentPage <= TotalPages(|apiLogs|) || currentPage == old(currentPage)
    {
      var total := TotalPages(|apiLogs|);
      if currentPage != total {
        currentPage := NextPage(currentPage, total);
      }
    }
  }
}
