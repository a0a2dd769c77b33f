/** What the web client's pages share: the browser's token storage, its
    router and its alert box, the requests the pages send, and the shapes of
    the replies they receive.

    A request's outcome is an input of the operation that sends it: a
    success with its data, or a failure that may or may not carry a
    response body. Every request a page sends is appended to `sent`, so a
    contract can say that no request was made. */
module Client {
  import opened Common

  datatype Route = LoginRoute | DashboardRoute

  /** Fields a failed request's response body may carry. */
  datatype ErrorBody = ErrorBody(message: Option<string>, error: Option<string>, detail: Option<string>)

  /** Outcome of one request: `Failure(None)` is a failure with no response
      at all (the network or the client itself failed). */
  datatype Reply<T> = Success(data: T) | Failure(response: Option<ErrorBody>)

  /** `error.response?.data?.message`. */
  function ResponseMessage(response: Option<ErrorBody>): Option<string> {
    if response.Some? then response.value.message else None
  }

  /** Body of the registration request: no confirmation field. */
  datatype RegisterPayload = RegisterPayload(
    email: string, password: string, displayName: string,
    temperatureUnit: int, windSpeedUnit: int)

  /** Body of the profile update; an absent field is left out of the JSON. */
  datatype UpdatePayload = UpdatePayload(
    displayName: string, password: Option<string>,
    temperatureUnit: Option<int>, windSpeedUnit: Option<int>)

  datatype Endpoint =
    | RoleEndpoint | ApiLogsEndpoint | UsersEndpoint | CacheEndpoint | CityCacheEndpoint(city: string)
    | UserEndpoint | GdprEndpoint | WeatherEndpoint(city: string)

  /** A request as sent; `auth` is the token put in the Authorization header. */
  datatype Request =
    | PostToken(username: string, password: string)
    | PostRegister(registration: RegisterPayload)
    | Get(endpoint: Endpoint, auth: string)
    | Patch(update: UpdatePayload, auth: string)
    | Delete(endpoint: Endpoint, auth: string)

  /** A stored token counts only when it is a non-empty string. */
  predicate HasToken(token: Option<string>) {
    Truthy(token)
  }

  /** The browser state the pages share: storage, navigation, alerts, and
      the log of requests sent. */
  class Browser {
    var token: Option<string>
    var navigations: seq<Route>
    var alerts: seq<string>
    var sent: seq<Request>

    constructor (token: Option<string>)
      ensures this.token == token && navigations == [] && alerts == [] && sent == []
    {
      this.token := token;
      navigations, alerts, sent := [], [], [];
    }
  }
}
