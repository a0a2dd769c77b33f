/** The profile page (weather_front/app/profile/page.tsx): loading the
    account, submitting changes, and deleting the account. */
module Profile {
  import opened Common
  import opened Client

  /** Body of a successful account request. */
  datatype UserInfo = UserInfo(displayName: string, temperatureUnit: int, windSpeedUnit: int)

  const InvalidToken: string := "Invalid token."
  const PasswordsDiffer: string := "Passwords do not match."
  const LogInAgain: string := "Please log in again"
  const Updated: string := "Profile updated successfully"
  const UpdateFailed: string := "Failed to update profile. Please try again."
  const DeleteFailed: string := "Failed to delete account. Please try again."

  /** The update request body: an empty password is left out, the name and
      both units are always sent (a unit never loaded is sent as null). */
  function UpdatePayloadOf(displayName: string, password: string,
                           temperatureUnit: Option<int>, windSpeedUnit: Option<int>): (p: UpdatePayload)
    ensures p.password.None? <==> password == ""
    ensures p.password.Some? ==> p.password.value == password
    ensures p.displayName == displayName
    ensures p.temperatureUnit == temperatureUnit && p.windSpeedUnit == windSpeedUnit
  {
    UpdatePayload(displayName, if password == "" then None else Some(password), temperatureUnit, windSpeedUnit)
  }

  /** The message a failed update shows: the server's `error` text when it
      sent one, the default text otherwise. */
  function UpdateFailureMessage(response: Option<ErrorBody>): string {
    if response.Some? && Truthy(response.value.error) then response.value.error.value else UpdateFailed
  }

  class ProfilePage {
    const browser: Browser
    var displayName: string
    var temperatureUnit: Option<int>
    var windSpeedUnit: Option<int>
    var password: string
    var confirmPassword: string
    var message: Option<string>

    constructor (browser: Browser)
      ensures this.browser == browser
      ensures displayName == "" && temperatureUnit == None && windSpeedUnit == None
      ensures password == "" && confirmPassword == "" && message == None
    {
      this.browser := browser;
      displayName, temperatureUnit, windSpeedUnit := "", None, None;
      password, confirmPassword, message := "", "", None;
    }

    /** Loading the account when the page mounts. Without a token it goes
        to the login page and asks nothing; a rejected token also leads to
        the login page, but the token stays stored. */
    method Load(reply: Reply<UserInfo>)
      modifies this, browser
      ensures password == old(password) && confirmPassword == old(confirmPassword) && message == old(message)
      ensures browser.token == old(browser.token) && browser.alerts == old(browser.alerts)
      ensures !HasToken(browser.token) ==>
        && browser.sent == old(browser.sent)
        && browser.navigations == old(browser.navigations) + [LoginRoute]
        && displayName == old(displayName)
        && temperatureUnit == old(temperatureUnit) && windSpeedUnit == old(windSpeedUnit)
      ensures HasToken(browser.token) ==>
        browser.sent == old(browser.sent) + [Get(UserEndpoint, browser.token.value)]
      ensures HasToken(browser.token) && reply.Success? ==>
        && displayName == reply.data.displayName
        && temperatureUnit == Some(reply.data.temperatureUnit)
        && windSpeedUnit == Some(reply.data.windSpeedUnit)
        && browser.navigations == old(browser.navigations)
      ensures HasToken(browser.token) && reply.Failure? ==>
        && displayName == old(displayName)
        && temperatureUnit == old(temperatureUnit) && windSpeedUnit == old(windSpeedUnit)
        && browser.navigations ==
             old(browser.navigations)
             + (if reply.response.Some? && reply.response.value.detail == Some(InvalidToken)
                then [LoginRoute] else [])
    {
      var token := browser.token;
      if !HasToken(token) {
        browser.navigations := browser.navigations + [LoginRoute];
        return;
      }
      browser.sent := browser.sent + [Get(UserEndpoint, token.value)];
      match reply {
        case Success(info) =>
          displayName := info.displayName;
          temperatureUnit := Some(info.temperatureUnit);
          windSpeedUnit := Some(info.windSpeedUnit);
        case Failure(response) =>
          if response.Some? && response.value.detail == Some(InvalidToken) {
            browser.navigations := browser.navigations + [LoginRoute];
          }
      }
    }

    /** Submitting the form. The display name is a required field, so the
        form does not submit while it is empty. Otherwise the message is
        cleared, then the confirmation is checked before the token, and only
        when both pass is the update sent. */
    method Submit(reply: Reply<()>)
      modifies this, browser
      ensures displayName == old(displayName) && password == old(password)
      ensures confirmPassword == old(confirmPassword)
      ensures temperatureUnit == old(temperatureUnit) && windSpeedUnit == old(windSpeedUnit)
      ensures browser.token == old(browser.token) && browser.alerts == old(browser.alerts)
      ensures browser.navigations == old(browser.navigations)
      ensures displayName == "" ==> message == old(message) && browser.sent == old(browser.sent)
      ensures displayName != "" && password != confirmPassword ==>
        message == Some(PasswordsDiffer) && browser.sent == old(browser.sent)
      ensures displayName != "" && password == confirmPassword && !HasToken(browser.token) ==>
        message == Some(LogInAgain) && browser.sent == old(browser.sent)
      ensures displayName != "" && password == confirmPassword && HasToken(browser.token) ==>
        && browser.sent == old(browser.sent)
             + [Patch(UpdatePayloadOf(displayName, password, temperatureUnit, windSpeedUnit),
                      browser.token.value)]
        && (reply.Success? ==> message == Some(Updated))
        && (reply.Failure? && reply.response.Some? && Truthy(reply.response.value.error) ==>
              message == reply.response.value.error)
        && (reply.Failure? && !(reply.response.Some? && Truthy(reply.response.value.error)) ==>
              message == Some(UpdateFailed))
    {
      if displayName == "" {
        return;
      }
      message := None;
      if password != confirmPassword {
        message := Some(PasswordsDiffer);
        return;
      }
      var token := browser.token;
      if !HasToken(token) {
        message := Some(LogInAgain);
        return;
      }
      var payload := UpdatePayloadOf(displayName, password, temperatureUnit, windSpeedUnit);
      browser.sent := browser.sent + [Patch(payload, token.value)];
      match reply {
        case Success(_) => message := Some(Updated);
        case Failure(response) => message := Some(UpdateFailureMessage(response));
      }
    }

    /** Deleting the account. Nothing happens unless the user confirms; the
        token is removed, and the login page opened, only after the server
        accepted the deletion. */
    method DeleteAccount(confirmed: bool, reply: Reply<()>)
      modifies this, browser
      ensures displayName == old(displayName) && password == old(password)
      ensures confirmPassword == old(confirmPassword)
      ensures temperatureUnit == old(temperatureUnit) && windSpeedUnit == old(windSpeedUnit)
      ensures browser.alerts == old(browser.alerts)
      ensures !confirmed ==>
        && message == old(message) && browser.token == old(browser.token)
        && browser.sent == old(browser.sent) && browser.navigations == old(browser.navigations)
      ensures confirmed && !HasToken(old(browser.token)) ==>
        && message == Some(LogInAgain) && browser.token == old(browser.token)
        && browser.sent == old(browser.sent) && browser.navigations == old(browser.navigations)
      ensures confirmed && HasToken(old(browser.token)) ==>
        && browser.sent == old(browser.sent) + [Delete(GdprEndpoint, old(browser.token).value)]
        && (reply.Success? ==>
              && browser.token == None && message == old(message)
              && browser.navigations == old(browser.navigations) + [LoginRoute])
        && (reply.Failure? ==>
              && browser.token == old(browser.token) && message == Some(DeleteFailed)
              && browser.navigations == old(browser.navigations))
    {
      if !confirmed {
        return;
      }
      var token := browser.token;
      if !HasToken(token) {
        message := Some(LogInAgain);
        return;
      }
      browser.sent := browser.sent + [Delete(GdprEndpoint, token.value)];
      match reply {
        case Success(_) =>
          browser.token := None;
          browser.navigations := browser.navigations + [LoginRoute];
        case Failure(_) =>
          message := Some(DeleteFailed);
      }
    }
  }
}
