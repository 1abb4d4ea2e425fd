/**
 * auth.js: the login, signup, forgot-password and reset-password forms.
 * Each submission runs its checks in a fixed order and stops at the first
 * failure without any request; a successful request leads to a fixed page.
 */
module AuthForms {
  import opened Wrappers
  import opened JsValue
  import opened Browser
  import ApiClient
  import Session

  const InvalidEmail: string := "Please enter a valid email address."
  const ShortPassword: string := "Password must be at least 6 characters."
  const MinUsernameLength: nat := 3

  /** The login form's checks: the email before the password. None lets the request go. */
  function LoginCheck(email: string, password: string): (failure: Option<string>)
    ensures failure.None? <==> Session.ValidateEmail(email) && Session.ValidatePassword(password)
    ensures !Session.ValidateEmail(email) ==> failure == Some(InvalidEmail)
    ensures Session.ValidateEmail(email) && !Session.ValidatePassword(password) ==> failure == Some(ShortPassword)
  {
    if !Session.ValidateEmail(email) then Some(InvalidEmail)
    else if !Session.ValidatePassword(password) then Some(ShortPassword)
    else None
  }

  /** The signup form's checks, in order: username length, email, password, confirmation. */
  function SignupCheck(username: string, email: string, password: string, confirmPassword: string)
    : (failure: Option<string>)
    ensures failure.None? <==>
      |username| >= MinUsernameLength && Session.ValidateEmail(email) && Session.ValidatePassword(password)
      && password == confirmPassword
    ensures |username| < MinUsernameLength ==> failure == Some("Username must be at least 3 characters.")
    ensures |username| >= MinUsernameLength && !Session.ValidateEmail(email) ==> failure == Some(InvalidEmail)
    ensures |username| >= MinUsernameLength && Session.ValidateEmail(email) && !Session.ValidatePassword(password) ==>
      failure == Some(ShortPassword)
    ensures failure == Some("Passwords do not match.") <==>
      |username| >= MinUsernameLength && Session.ValidateEmail(email) && Session.ValidatePassword(password)
      && password != confirmPassword
  {
    if |username| < MinUsernameLength then Some("Username must be at least 3 characters.")
    else if !Session.ValidateEmail(email) then Some(InvalidEmail)
    else if !Session.ValidatePassword(password) then Some(ShortPassword)
    else if password != confirmPassword then Some("Passwords do not match.")
    else None
  }

  /** The reset form's checks: the mismatch before the length. */
  function ResetCheck(newPassword: string, confirmNewPassword: string): (failure: Option<string>)
    ensures newPassword != confirmNewPassword ==> failure == Some("New passwords do not match.")
    ensures failure.None? <==> newPassword == confirmNewPassword && Session.ValidatePassword(newPassword)
    ensures newPassword == confirmNewPassword && !Session.ValidatePassword(newPassword) ==> failure == Some(ShortPassword)
  {
    if newPassword != confirmNewPassword then Some("New passwords do not match.")
    else if !Session.ValidatePassword(newPassword) then Some(ShortPassword)
    else None
  }

  /**
   * The reset code field after load: the URL's `code` parameter when it is
   * present and non-empty, the field's own value otherwise.
   */
  function PrefilledCode(codeParam: Option<string>, field: string): (code: string)
    ensures codeParam.Some? && codeParam.value != "" ==> code == codeParam.value
    ensures codeParam.None? || codeParam.value == "" ==> code == field
  {
    if codeParam.Some? && codeParam.value != "" then codeParam.value else field
  }

  /** The body AuthAPI.signup posts. */
  function SignupBody(username: string, email: string, password: string): (body: ApiClient.Body)
    ensures body.Data? && Prop(body.value, "username") == JStr(username)
    ensures Prop(body.value, "email") == JStr(email) && Prop(body.value, "password") == JStr(password)
  {
    var data := JObj([("username", JStr(username)), ("email", JStr(email)), ("password", JStr(password))]);
    assert data.entries[1].0 == "email" && data.entries[2].0 == "password";
    ApiClient.Data(data)
  }

  /** The body the reset form posts. */
  function ResetBody(email: string, code: string, newPassword: string): (body: ApiClient.Body)
    ensures body.Data? && Prop(body.value, "email") == JStr(email)
    ensures Prop(body.value, "code") == JStr(code) && Prop(body.value, "new_password") == JStr(newPassword)
  {
    var data := JObj([("email", JStr(email)), ("code", JStr(code)), ("new_password", JStr(newPassword))]);
    assert data.entries[1].0 == "code" && data.entries[2].0 == "new_password";
    ApiClient.Data(data)
  }

  /** The colour of the reset form's message: the stylesheet's until the script sets one. */
  datatype LineColour = StyleColour | Red | Green

  /** The reset form's message line: its text and colour, set separately by the script. */
  datatype ResetLine = ResetLine(text: Json, colour: LineColour)

  /** The colour a line keeps when only its text is replaced. */
  function KeptColour(line: Option<ResetLine>): (c: LineColour)
    ensures line.None? ==> c == StyleColour
    ensures line.Some? ==> c == line.value.colour
  {
    if line.Some? then line.value.colour else StyleColour
  }

  /** The messages of the login/signup page (`message`), the forgot form and the reset form. */
  class AuthPage {
    var message: Option<Notice>
    var forgotMessage: Option<Notice>
    var resetMessage: Option<ResetLine>
    var resetCode: string

    constructor()
      ensures message == None && forgotMessage == None && resetMessage == None && resetCode == ""
    {
      message := None;
      forgotMessage := None;
      resetMessage := None;
      resetCode := "";
    }

    /**
     * The page's start: a logged-in visitor is sent to /dashboard, and the
     * reset code is taken from the URL.
     */
    method Start(w: Window, storage: LocalStorage, getterDefined: bool, decode: string -> Option<Json>,
                 parseNumber: string -> Option<real>, nowMs: real, codeParam: Option<string>)
      modifies this, w
      ensures w.navigations == old(w.navigations) +
        Session.Visits(if Session.LoggedIn(storage, getterDefined, decode, parseNumber, nowMs)
                          && old(w.pathname) != "/dashboard" then Some("/dashboard") else None)
      ensures resetCode == PrefilledCode(codeParam, old(resetCode))
      ensures message == old(message) && forgotMessage == old(forgotMessage) && resetMessage == old(resetMessage)
    {
      Session.CheckAuthAndRedirect(w, storage, getterDefined, decode, parseNumber, nowMs, false, true);
      resetCode := PrefilledCode(codeParam, resetCode);
    }

    /**
     * The login form. `reply` is how AuthAPI.signin settled (its storage of
     * the token is Signin's); success goes to /dashboard once the short
     * timer fires.
     */
    method SubmitLogin(w: Window, email: string, password: string, reply: ApiClient.Outcome)
      returns (call: Option<ApiClient.Call>)
      modifies this, w
      ensures LoginCheck(email, password).Some? ==>
        && call == None && message == Some(Notice(JStr(LoginCheck(email, password).value), true))
        && w.navigations == old(w.navigations)
      ensures LoginCheck(email, password).None? ==>
        call == Some(ApiClient.Call("/api/auth/signin", "POST", ApiClient.Credentials(email, password), false))
      ensures LoginCheck(email, password).None? && reply.Returned? ==>
        && message == Some(Notice(Prop(reply.data, "message"), false))
        && w.navigations == old(w.navigations) + ["/dashboard"]
      ensures LoginCheck(email, password).None? && reply.Threw? ==>
        && message == Some(Notice(JStr(ApiClient.FailureText(reply.message,
                                         "Login failed. Please check your credentials.")), true))
        && w.navigations == old(w.navigations)
      ensures forgotMessage == old(forgotMessage) && resetMessage == old(resetMessage) && resetCode == old(resetCode)
      ensures w.alerts == old(w.alerts)
    {
      var failure := LoginCheck(email, password);
      if failure.Some? {
        message := Some(Notice(JStr(failure.value), true));
        return None;
      }
      call := Some(ApiClient.Call("/api/auth/signin", "POST", ApiClient.Credentials(email, password), false));
      match reply {
        case Returned(response) =>
          message := Some(Notice(Prop(response, "message"), false));
          w.Navigate("/dashboard");
        case Threw(m) =>
          message := Some(Notice(JStr(ApiClient.FailureText(m, "Login failed. Please check your credentials.")), true));
      }
    }

    /** The signup form; success goes to /login once the timer fires. */
    method SubmitSignup(w: Window, username: string, email: string, password: string, confirmPassword: string,
                        reply: ApiClient.Outcome, numberText: real -> string)
      returns (call: Option<ApiClient.Call>)
      modifies this, w
      ensures var failure := SignupCheck(username, email, password, confirmPassword);
        && (failure.Some? ==>
              call == None && message == Some(Notice(JStr(failure.value), true)) && w.navigations == old(w.navigations))
        && (failure.None? ==>
              call == Some(ApiClient.Call("/api/auth/signup", "POST", SignupBody(username, email, password), false)))
        && (failure.None? && reply.Returned? ==>
              && message == Some(Notice(JStr(JsString(Prop(reply.data, "message"), numberText)
                                             + " Redirecting to login..."), false))
              && w.navigations == old(w.navigations) + ["/login"])
        && (failure.None? && reply.Threw? ==>
              && message == Some(Notice(JStr(ApiClient.FailureText(reply.message, "Signup failed.")), true))
              && w.navigations == old(w.navigations))
      ensures forgotMessage == old(forgotMessage) && resetMessage == old(resetMessage) && resetCode == old(resetCode)
      ensures w.alerts == old(w.alerts)
    {
      var failure := SignupCheck(username, email, password, confirmPassword);
      if failure.Some? {
        message := Some(Notice(JStr(failure.value), true));
        return None;
      }
      call := Some(ApiClient.Call("/api/auth/signup", "POST", SignupBody(username, email, password), false));
      match reply {
        case Returned(response) =>
          message := Some(Notice(JStr(JsString(Prop(response, "message"), numberText) + " Redirecting to login..."), false));
          w.Navigate("/login");
        case Threw(m) =>
          message := Some(Notice(JStr(ApiClient.FailureText(m, "Signup failed.")), true));
      }
    }

    /**
     * The forgot-password form: no client-side check; the reply's message is
     * shown with the reset link it carries.
     */
    method SubmitForgot(email: string, reply: ApiClient.Outcome, numberText: real -> string)
      returns (call: ApiClient.Call)
      modifies this
      ensures call == ApiClient.Call("/api/auth/forgot-password", "POST", ApiClient.Data(Single("email", JStr(email))), false)
      ensures reply.Returned? ==>
        var url := JsString(Prop(reply.data, "reset_url"), numberText);
        forgotMessage == Some(Notice(JStr(JsString(Prop(reply.data, "message"), numberText)
          + "<br>For demo purposes, click this link to reset your password:<br><a href=\"" + url
          + "\" target=\"_blank\">" + url + "</a>"), false))
      ensures reply.Threw? ==>
        forgotMessage == Some(Notice(JStr(ApiClient.FailureText(reply.message, "Failed to initiate reset.")), true))
      ensures message == old(message) && resetMessage == old(resetMessage) && resetCode == old(resetCode)
    {
      call := ApiClient.Call("/api/auth/forgot-password", "POST", ApiClient.Data(Single("email", JStr(email))), false);
      match reply {
        case Returned(response) =>
          var url := JsString(Prop(response, "reset_url"), numberText);
          forgotMessage := Some(Notice(JStr(JsString(Prop(response, "message"), numberText)
            + "<br>For demo purposes, click this link to reset your password:<br><a href=\"" + url
            + "\" target=\"_blank\">" + url + "</a>"), false));
        case Threw(m) =>
          forgotMessage := Some(Notice(JStr(ApiClient.FailureText(m, "Failed to initiate reset.")), true));
      }
    }

    /** The reset form; success goes to /login once the timer fires. */
    method SubmitReset(w: Window, email: string, code: string, newPassword: string, confirmNewPassword: string,
                       reply: ApiClient.Outcome)
      returns (call: Option<ApiClient.Call>)
      modifies this, w
      ensures var failure := ResetCheck(newPassword, confirmNewPassword);
        && (failure.Some? ==>
              && call == None && w.navigations == old(w.navigations)
              && resetMessage == Some(ResetLine(JStr(failure.value), KeptColour(old(resetMessage)))))
        && (failure.None? ==>
              call == Some(ApiClient.Call("/api/auth/reset-password", "POST",
                                          ResetBody(email, code, newPassword), false)))
        && (failure.None? && reply.Returned? ==>
              && resetMessage == Some(ResetLine(Prop(reply.data, "message"), Green))
              && w.navigations == old(w.navigations) + ["/login"])
        && (failure.None? && reply.Threw? ==>
              && resetMessage == Some(ResetLine(JStr(ApiClient.FailureText(reply.message,
                                                    "Password reset failed. Check email and code.")), Red))
              && w.navigations == old(w.navigations))
      ensures message == old(message) && forgotMessage == old(forgotMessage) && resetCode == old(resetCode)
      ensures w.alerts == old(w.alerts)
    {
      var failure := ResetCheck(newPassword, confirmNewPassword);
      if failure.Some? {
        // Only the text is set: the colour stays the stylesheet's or the last attempt's.
        resetMessage := Some(ResetLine(JStr(failure.value), KeptColour(resetMessage)));
        return None;
      }
      call := Some(ApiClient.Call("/api/auth/reset-password", "POST", ResetBody(email, code, newPassword), false));
      match reply {
        case Returned(response) =>
          resetMessage := Some(ResetLine(Prop(response, "message"), Green));
          w.Navigate("/login");
        case Threw(m) =>
          resetMessage := Some(ResetLine(JStr(ApiClient.FailureText(m, "Password reset failed. Check email and code.")), Red));
      }
    }
  }
}
