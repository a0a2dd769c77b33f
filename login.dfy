/** The login page (weather_front/app/login/page.tsx): the form posts the
    credentials and stores the token it gets back. */
module Login {
  import opened Common
  import opened Client

  datatype LoginForm = LoginForm(email: string, password: string)

  /** Body of a successful token request; `token` may be missing or empty. */
  datatype TokenData = TokenData(token: Option<string>)

  const LoginSucceeded: string := "Login successful"
  const TokenMissing: string := "Login failed. Token not received."
  const LoginFailed: string := "Login failed due to an unexpected error"

  /** Both fields are required; the form does not submit otherwise. */
  predicate FormValid(form: LoginForm) {
    form.email != "" && form.password != ""
  }

  /** The token request the form sends: the email goes in as `username`. */
  function TokenRequest(form: LoginForm): Request {
    PostToken(form.email, form.password)
  }

  /** Submitting the form. The token is stored, and the dashboard opened,
      only when the reply carries a non-empty token; every other outcome is
      an alert and leaves storage and navigation as they were. */
  method Submit(browser: Browser, form: LoginForm, reply: Reply<TokenData>)
    modifies browser
    ensures !FormValid(form) ==>
      && browser.token == old(browser.token) && browser.sent == old(browser.sent)
      && browser.alerts == old(browser.alerts) && browser.navigations == old(browser.navigations)
    ensures FormValid(form) ==> browser.sent == old(browser.sent) + [PostToken(form.email, form.password)]
    ensures FormValid(form) && reply.Success? && Truthy(reply.data.token) ==>
      && browser.token == reply.data.token
      && browser.alerts == old(browser.alerts) + [LoginSucceeded]
      && browser.navigations == old(browser.navigations) + [DashboardRoute]
    ensures FormValid(form) && reply.Success? && !Truthy(reply.data.token) ==>
      && browser.token == old(browser.token)
      && browser.alerts == old(browser.alerts) + [TokenMissing]
      && browser.navigations == old(browser.navigations)
    ensures FormValid(form) && reply.Failure? ==>
      && browser.token == old(browser.token)
      && browser.alerts == old(browser.alerts) + [OrElse(ResponseMessage(reply.response), LoginFailed)]
      && browser.navigations == old(browser.navigations)
  {
    if !FormValid(form) {
      return;
    }
    browser.sent := browser.sent + [TokenRequest(form)];
    match reply {
      case Success(data) =>
        if Truthy(data.token) {
          browser.token := data.token;
          browser.alerts := browser.alerts + [LoginSucceeded];
          browser.navigations := browser.navigations + [DashboardRoute];
        } else {
          browser.alerts := browser.alerts + [TokenMissing];
        }
      case Failure(response) =>
        browser.alerts := browser.alerts + [OrElse(ResponseMessage(response), LoginFailed)];
    }
  }
}
