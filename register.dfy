/** The registration page (weather_front/app/register/page.tsx): field rules,
    the confirmation guard, and what the page does with the reply. The page
    keeps no state of its own, so submitting it is a method that returns
    what happened. */
module Register {
  import opened Common
  import opened Client

  /** The form as entered; the unit selects always hold 0 or 1. */
  datatype RegisterForm = RegisterForm(
    email: string, password: string, confirmPassword: string, displayName: string,
    temperatureUnit: int, windSpeedUnit: int)

  datatype Field = EmailField | PasswordField | ConfirmField | DisplayNameField

  /** Body of the registration reply; a missing `success` reads as false. */
  datatype RegisterData = RegisterData(success: bool, message: Option<string>)

  /** What one submission did. */
  datatype Submission = Submission(
    fieldErrors: set<Field>, request: Option<Request>, alert: Option<string>, redirect: Option<Route>)

  const MinPasswordLength: nat := 8
  const PasswordsDiffer: string := "Passwords do not match"
  const RegistrationRejected: string := "Registration failed. Please try again."
  const RegistrationFailed: string := "Registration failed due to an unexpected error"

  /** JavaScript's `value.length`, which the length rule compares: it counts
      UTF-16 code units, so a character outside the Basic Multilingual Plane
      counts twice. */
  function Utf16Length(s: string): (n: nat)
    ensures |s| <= n <= 2 * |s|
    decreases |s|
  {
    if s == [] then 0
    else Utf16Length(s[..|s| - 1]) + (if s[|s| - 1] as int >= 0x1_0000 then 2 else 1)
  }

  /** A string made only of characters outside the Basic Multilingual Plane
      has twice as many code units as characters. */
  lemma {:induction false} AstralLength(s: string)
    requires forall i :: 0 <= i < |s| ==> s[i] as int >= 0x1_0000
    ensures Utf16Length(s) == 2 * |s|
    decreases |s|
  {
    if s != [] {
      AstralLength(s[..|s| - 1]);
    }
  }

  /** The length rule in characters: eight characters always pass, fewer
      than four never do, and four characters outside the Basic
      Multilingual Plane (four emoji, say) already pass. */
  lemma PasswordLengthInCharacters(form: RegisterForm)
    ensures |form.password| >= MinPasswordLength ==> PasswordField !in FieldErrors(form)
    ensures |form.password| < MinPasswordLength / 2 ==> PasswordField in FieldErrors(form)
    ensures |form.password| == 4 && (forall i :: 0 <= i < 4 ==> form.password[i] as int >= 0x1_0000) ==>
      PasswordField !in FieldErrors(form)
  {
    if |form.password| == 4 && (forall i :: 0 <= i < 4 ==> form.password[i] as int >= 0x1_0000) {
      AstralLength(form.password);
    }
  }

  /** The fields whose rules the entry breaks: email, confirmation and
      display name are required, the password is required and at least
      eight UTF-16 code units long. */
  function FieldErrors(form: RegisterForm): (errors: set<Field>)
    ensures EmailField in errors <==> form.email == ""
    ensures PasswordField in errors <==> Utf16Length(form.password) < MinPasswordLength
    ensures ConfirmField in errors <==> form.confirmPassword == ""
    ensures DisplayNameField in errors <==> form.displayName == ""
  {
    (if form.email == "" then {EmailField} else {})
    + (if form.password == "" || Utf16Length(form.password) < MinPasswordLength then {PasswordField} else {})
    + (if form.confirmPassword == "" then {ConfirmField} else {})
    + (if form.displayName == "" then {DisplayNameField} else {})
  }

  /** The registration request: everything but the confirmation. */
  function Payload(form: RegisterForm): RegisterPayload {
    RegisterPayload(form.email, form.password, form.displayName, form.temperatureUnit, form.windSpeedUnit)
  }

  /** `alert(x)` with `x` undefined shows the text "undefined". */
  function AlertText(s: Option<string>): string {
    s.GetOr("undefined")
  }

  /** Submitting the form. Field rules first, then the confirmation guard;
      a request is sent only when both pass, and only an accepted
      registration redirects to the login page. */
  method Submit(form: RegisterForm, reply: Reply<RegisterData>) returns (out: Submission)
    ensures out.fieldErrors == FieldErrors(form)
    ensures out.request.Some? <==> FieldErrors(form) == {} && form.password == form.confirmPassword
    ensures out.request.Some? ==>
      (out.request.value == PostRegister(RegisterPayload(form.email, form.password, form.displayName,
                                                         form.temperatureUnit, form.windSpeedUnit)))
    ensures out.redirect.Some? <==> out.request.Some? && reply.Success? && reply.data.success
    ensures out.redirect.Some? ==> out.redirect.value == LoginRoute
    ensures FieldErrors(form) != {} ==> out.alert.None?
    ensures FieldErrors(form) == {} && form.password != form.confirmPassword ==>
      out.alert == Some(PasswordsDiffer)
    ensures out.request.Some? ==> match reply
      case Success(data) =>
        out.alert == Some(if data.success then AlertText(data.message)
                          else OrElse(data.message, RegistrationRejected))
      case Failure(response) =>
        out.alert == Some(OrElse(ResponseMessage(response), RegistrationFailed))
  {
    var errors := FieldErrors(form);
    if errors != {} {
      return Submission(errors, None, None, None);
    }
    if form.password != form.confirmPassword {
      return Submission(errors, None, Some(PasswordsDiffer), None);
    }
    var request := PostRegister(Payload(form));
    match reply {
      case Success(data) =>
        if !data.success {
          return Submission(errors, Some(request), Some(OrElse(data.message, RegistrationRejected)), None);
        }
        out := Submission(errors, Some(request), Some(AlertText(data.message)), Some(LoginRoute));
      case Failure(response) =>
        out := Submission(errors, Some(request), Some(OrElse(ResponseMessage(response), RegistrationFailed)), None);
    }
  }
}
