/** The weather dashboard (weather_front/app/dashboard/page.tsx): the fetch
    of one city's weather, with its loading and error states, and the
    hourly forecast table. The fetch is split at its `await`: `BeginFetch`
    runs up to the request, `CompleteFetch` runs when the reply arrives. */
module Dashboard {
  import opened Common
  import opened Client

  /** The hourly series, parallel by index. */
  datatype ForecastData = ForecastData(
    time: seq<string>, temperature: seq<real>, windSpeed: seq<real>, humidity: seq<real>)

  /** The weather record the page expects. */
  datatype WeatherData = WeatherData(
    city: string, latitude: real, longitude: real, temperature: real, humidity: real,
    windSpeed: real, forecast: ForecastData, cachedAt: string, expiryTime: string)

  /** One line of the forecast table; a missing value shows as undefined. */
  datatype Row = Row(time: string, temperature: Option<real>, humidity: Option<real>, windSpeed: Option<real>)

  /** The only city the page asks for. */
  const City: string := "Tokyo"
  const NoTokenError: string := "No authentication token found. Please login again."
  const FetchFailed: string := "Failed to fetch weather data"

  /** `s[i]` in JavaScript: undefined past the end. */
  function At(s: seq<real>, i: nat): Option<real> {
    if i < |s| then Some(s[i]) else None
  }

  /** The forecast table: one row per time entry, row i showing element i of
      each series. */
  function ForecastRows(f: ForecastData): (rows: seq<Row>)
    ensures |rows| == |f.time|
    ensures forall i :: 0 <= i < |rows| ==> rows[i].time == f.time[i]
    ensures forall i :: 0 <= i < |rows| ==>
      && (if i < |f.temperature| then rows[i].temperature == Some(f.temperature[i]) else rows[i].temperature.None?)
      && (if i < |f.humidity| then rows[i].humidity == Some(f.humidity[i]) else rows[i].humidity.None?)
      && (if i < |f.windSpeed| then rows[i].windSpeed == Some(f.windSpeed[i]) else rows[i].windSpeed.None?)
  {
    seq(|f.time|, i requires 0 <= i < |f.time| =>
      Row(f.time[i], At(f.temperature, i), At(f.humidity, i), At(f.windSpeed, i)))
  }

  predicate Aligned(f: ForecastData) {
    |f.temperature| == |f.time| && |f.humidity| == |f.time| && |f.windSpeed| == |f.time|
  }

  /** When the series are as long as the time axis, every row is complete
      and row i is exactly the i-th sample of each series. */
  lemma AlignedRowsAreComplete(f: ForecastData)
    requires Aligned(f)
    ensures forall i :: 0 <= i < |f.time| ==>
      ForecastRows(f)[i] == Row(f.time[i], Some(f.temperature[i]), Some(f.humidity[i]), Some(f.windSpeed[i]))
  {
  }

  class DashboardPage {
    const browser: Browser
    var weatherData: Option<WeatherData>
    var loading: bool
    var error: Option<string>
    /** A request has been sent and its reply has not arrived. */
    var pending: bool

    constructor (browser: Browser)
      ensures this.browser == browser
      ensures weatherData == None && loading && error == None && !pending
    {
      this.browser := browser;
      weatherData, loading, error, pending := None, true, None, false;
    }

    /** The weather panel is shown only with data and no error. */
    predicate PanelVisible()
      reads this
      ensures PanelVisible() <==> weatherData.Some? && (error.None? || error.value == "")
    {
      weatherData.Some? && !Truthy(error)
    }

    /** Up to the request: loading on, error cleared; without a token the
        error is set, loading ends and nothing is sent. */
    method BeginFetch()
      modifies this, browser
      ensures weatherData == old(weatherData)
      ensures browser.token == old(browser.token) && browser.navigations == old(browser.navigations)
      ensures browser.alerts == old(browser.alerts)
      ensures !HasToken(browser.token) ==>
        && error == Some(NoTokenError) && !loading && pending == old(pending)
        && browser.sent == old(browser.sent) && !PanelVisible()
      ensures HasToken(browser.token) ==>
        && error == None && loading && pending
        && browser.sent == old(browser.sent) + [Get(WeatherEndpoint(City), browser.token.value)]
    {
      loading := true;
      error := None;
      var token := browser.token;
      if !HasToken(token) {
        error := Some(NoTokenError);
        loading := false;
        return;
      }
      browser.sent := browser.sent + [Get(WeatherEndpoint(City), token.value)];
      pending := true;
    }

    /** When the reply arrives: store the data or the error message; in
        either case loading ends. */
    method CompleteFetch(reply: Reply<WeatherData>)
      requires pending
      modifies this
      ensures !loading && !pending
      ensures reply.Success? ==> weatherData == Some(reply.data) && error == old(error)
      ensures reply.Failure? ==>
        weatherData == old(weatherData) && error == Some(OrElse(ResponseMessage(reply.response), FetchFailed))
      ensures reply.Failure? ==> !PanelVisible()
      ensures reply.Success? && !Truthy(old(error)) ==> PanelVisible()
    {
      match reply {
        case Success(data) => weatherData := Some(data);
        case Failure(response) => error := Some(OrElse(ResponseMessage(response), FetchFailed));
      }
      loading := false;
      pending := false;
    }
  }
}
