/**
 * settings.js: the account form (username change, or the two-step email
 * change through a pending address), the password form, and the saved
 * theme preference.
 */
module Settings {
  import opened Wrappers
  import opened JsValue
  import opened Browser
  import ApiClient
  import Session
  import Text

  const ThemeKey: string := "userTheme"

  /** `localStorage.getItem('userTheme') || 'light'`: a missing or empty theme reads as 'light'. */
  function SavedTheme(storage: LocalStorage): (theme: string)
    reads storage
    ensures theme != ""
    ensures theme == "dark" <==> storage.Item(ThemeKey) == Some("dark")
    ensures theme != "light" ==> storage.Item(ThemeKey) == Some(theme)
    ensures storage.Item(ThemeKey).Some? && storage.Item(ThemeKey).value != "" ==> theme == storage.Item(ThemeKey).value
  {
    match storage.Item(ThemeKey)
    case Some(t) => if t != "" then t else "light"
    case None => "light"
  }

  /** What a submission of the account form leads to. */
  datatype AccountStep =
    | Rejected(reason: string)       // a message, and no request
    | Rename(username: string)       // case A: PUT /api/user
    | SendCode(email: string)        // case B: POST /api/user/change-email/send-code
    | NoChange

  /**
   * The account form's decision, from the username field, the new-email
   * field and the profile loaded earlier. The new email is trimmed, the
   * username is only trimmed for the emptiness check.
   */
  function AccountDecision(newUsername: string, newEmailField: string, current: Json): (step: AccountStep)
    ensures Text.JsTrim(newUsername) == "" ==> step == Rejected("Username cannot be empty.")
    ensures step.Rename? ==>
      && step.username == newUsername && Text.JsTrim(newUsername) != ""
      && Text.JsTrim(newEmailField) == "" && JStr(newUsername) != Prop(current, "username")
    ensures step.SendCode? <==>
      && Text.JsTrim(newUsername) != ""
      && Text.JsTrim(newEmailField) != "" && Session.ValidateEmail(Text.JsTrim(newEmailField))
      && JStr(Text.JsTrim(newEmailField)) != Prop(current, "email")
    ensures step.SendCode? ==> step.email == Text.JsTrim(newEmailField)
    ensures Text.JsTrim(newEmailField) != "" ==> !step.Rename?
    ensures step == Rejected("Please enter a valid new email address.") <==>
      Text.JsTrim(newUsername) != "" && Text.JsTrim(newEmailField) != "" && !Session.ValidateEmail(Text.JsTrim(newEmailField))
  {
    var newEmail := Text.JsTrim(newEmailField);
    if Text.JsTrim(newUsername) == "" then Rejected("Username cannot be empty.")
    else if newEmail != "" && !Session.ValidateEmail(newEmail) then Rejected("Please enter a valid new email address.")
    else if JStr(newUsername) != Prop(current, "username") && newEmail == "" then Rename(newUsername)
    else if newEmail != "" && JStr(newEmail) != Prop(current, "email") then SendCode(newEmail)
    else NoChange
  }

  /**
   * The confirmation button's checks: a pending email first, then a
   * trimmed code of exactly six characters. None means the request goes.
   */
  function ConfirmCheck(pending: Option<string>, codeField: string): (failure: Option<string>)
    ensures (pending.None? || pending.value == "") ==> failure == Some("Please initiate email change first.")
    ensures failure.None? <==> pending.Some? && pending.value != "" && |Text.JsTrim(codeField)| == 6
    ensures failure.Some? ==> failure.value in {"Please initiate email change first.", "Code must be 6 digits."}
  {
    if pending.None? || pending.value == "" then Some("Please initiate email change first.")
    else if |Text.JsTrim(codeField)| != 6 then Some("Code must be 6 digits.")
    else None
  }

  /** The password form's checks: the mismatch is reported before the length. */
  function PasswordCheck(newPassword: string, confirmNewPassword: string): (failure: Option<string>)
    ensures newPassword != confirmNewPassword ==> failure == Some("New passwords do not match.")
    ensures failure.None? <==> newPassword == confirmNewPassword && Session.ValidatePassword(newPassword)
    ensures failure == Some("New password must be at least 6 characters.") <==>
      newPassword == confirmNewPassword && |newPassword| < Session.MinPasswordLength
  {
    if newPassword != confirmNewPassword then Some("New passwords do not match.")
    else if |newPassword| < 6 then Some("New password must be at least 6 characters.")
    else None
  }

  /** The body the preferences button sends. */
  function PreferencesData(theme: string, emailAlerts: bool, lowConfidenceAlerts: bool): (data: Json)
    ensures Prop(data, "theme") == JStr(theme)
    ensures Prop(data, "email_alerts") == JBool(emailAlerts)
    ensures Prop(data, "low_confidence_alerts") == JBool(lowConfidenceAlerts)
  {
    var data := JObj([("theme", JStr(theme)), ("email_alerts", JBool(emailAlerts)),
                      ("low_confidence_alerts", JBool(lowConfidenceAlerts))]);
    assert data.entries[1].0 == "email_alerts" && data.entries[2].0 == "low_confidence_alerts";
    data
  }

  /** Where a message is shown. */
  datatype Box = PageBox | AccountBox | SecurityBox | PreferencesBox

  /** The page's module state and what it shows. */
  const AccountFailure: string := "Failed to update account details or send code."

  class SettingsPage {
    var currentUserData: Json
    var newEmailPending: Option<string>
    var codeStep: bool              // the code group shown and the send button hidden
    var darkTheme: bool
    var themeSelectValue: string
    var shown: Option<(Box, Notice)>

    constructor()
      ensures currentUserData == JObj([]) && newEmailPending == None && !codeStep
      ensures !darkTheme && themeSelectValue == "" && shown == None
    {
      currentUserData := JObj([]);
      newEmailPending := None;
      codeStep := false;
      darkTheme := false;
      themeSelectValue := "";
      shown := None;
    }

    /** applySavedTheme: the dark-theme class is on exactly when the stored theme is 'dark'. */
    method ApplySavedTheme(storage: LocalStorage)
      modifies this
      ensures darkTheme <==> storage.Item(ThemeKey) == Some("dark")
      ensures themeSelectValue == SavedTheme(storage)
      ensures currentUserData == old(currentUserData) && newEmailPending == old(newEmailPending)
      ensures codeStep == old(codeStep) && shown == old(shown)
    {
      var savedTheme := SavedTheme(storage);
      darkTheme := savedTheme == "dark";
      themeSelectValue := savedTheme;
    }

    /**
     * loadUserProfile: the profile replaces the module state; a failed call,
     * or a null profile whose fields cannot be read, shows the failure.
     */
    method LoadUserProfile(reply: ApiClient.Outcome) returns (call: ApiClient.Call)
      modifies this
      ensures call == ApiClient.Call("/api/user/profile", "GET", ApiClient.Data(JNull), true)
      ensures reply.Returned? ==> currentUserData == reply.data
      ensures reply.Threw? ==> currentUserData == old(currentUserData)
      ensures (reply.Threw? || reply.data.JNull? || reply.data.JUndefined?) ==>
        shown == Some((PageBox, Notice(JStr("Failed to load user profile."), true)))
      ensures !(reply.Threw? || reply.data.JNull? || reply.data.JUndefined?) ==> shown == old(shown)
      ensures newEmailPending == old(newEmailPending) && codeStep == old(codeStep)
      ensures darkTheme == old(darkTheme) && themeSelectValue == old(themeSelectValue)
    {
      call := ApiClient.Call("/api/user/profile", "GET", ApiClient.Data(JNull), true);
      if reply.Returned? {
        currentUserData := reply.data;
      }
      if reply.Threw? || reply.data.JNull? || reply.data.JUndefined? {
        shown := Some((PageBox, Notice(JStr("Failed to load user profile."), true)));
      }
    }

    /** What the account form does once its decision is taken. */
    method ApplyAccountStep(step: AccountStep, reply: ApiClient.Outcome) returns (call: Option<ApiClient.Call>)
      modifies this
      ensures step.Rejected? ==> call == None && shown == Some((AccountBox, Notice(JStr(step.reason), true)))
      ensures step.NoChange? ==>
        call == None && shown == Some((AccountBox, Notice(JStr("No substantial changes detected."), false)))
      ensures step.Rename? ==>
        call == Some(ApiClient.Call("/api/user", "PUT", ApiClient.Data(Single("username", JStr(step.username))), true))
      ensures step.SendCode? ==>
        call == Some(ApiClient.Call("/api/user/change-email/send-code", "POST",
                                    ApiClient.Data(Single("new_email", JStr(step.email))), true))
      ensures step.Rename? && reply.Returned? ==>
        && currentUserData == SetProp(old(currentUserData), "username", JStr(step.username))
        && shown == Some((AccountBox, Notice(JStr("Username updated successfully."), false)))
      ensures step.SendCode? && reply.Returned? ==>
        && newEmailPending == Some(step.email) && codeStep
        && shown == Some((AccountBox, Notice(JStr("Verification code sent to " + step.email
                                                  + ". Enter it below to confirm. (MOCK CODE: 123456)"), false)))
      ensures (step.Rename? || step.SendCode?) && reply.Threw? ==>
        shown == Some((AccountBox, Notice(JStr(ApiClient.FailureText(reply.message, AccountFailure)), true)))
      ensures !(step.Rename? && reply.Returned?) ==> currentUserData == old(currentUserData)
      ensures !(step.SendCode? && reply.Returned?) ==> newEmailPending == old(newEmailPending) && codeStep == old(codeStep)
      ensures darkTheme == old(darkTheme) && themeSelectValue == old(themeSelectValue)
    {
      match step {
        case Rejected(reason) =>
          shown := Some((AccountBox, Notice(JStr(reason), true)));
          return None;
        case NoChange =>
          shown := Some((AccountBox, Notice(JStr("No substantial changes detected."), false)));
          return None;
        case Rename(username) =>
          call := Some(ApiClient.Call("/api/user", "PUT", ApiClient.Data(Single("username", JStr(username))), true));
          if reply.Returned? {
            currentUserData := SetProp(currentUserData, "username", JStr(username));
            shown := Some((AccountBox, Notice(JStr("Username updated successfully."), false)));
          } else {
            shown := Some((AccountBox, Notice(JStr(ApiClient.FailureText(reply.message, AccountFailure)), true)));
          }
        case SendCode(email) =>
          call := Some(ApiClient.Call("/api/user/change-email/send-code", "POST",
                                      ApiClient.Data(Single("new_email", JStr(email))), true));
          if reply.Returned? {
            newEmailPending := Some(email);
            codeStep := true;
            shown := Some((AccountBox, Notice(JStr("Verification code sent to " + email
                                                   + ". Enter it below to confirm. (MOCK CODE: 123456)"), false)));
          } else {
            shown := Some((AccountBox, Notice(JStr(ApiClient.FailureText(reply.message, AccountFailure)), true)));
          }
      }
    }

    /**
     * The account form's submit. A username change is sent only when no
     * new email is entered; the pending email is set only once the code
     * request has succeeded.
     */
    method SubmitAccount(newUsername: string, newEmailField: string, reply: ApiClient.Outcome)
      returns (call: Option<ApiClient.Call>)
      modifies this
      ensures Text.JsTrim(newEmailField) != "" ==>
        call.None? || call.value.endpoint != "/api/user"
      ensures newEmailPending != old(newEmailPending) ==>
        && reply.Returned? && call.Some? && call.value.endpoint == "/api/user/change-email/send-code"
        && newEmailPending == Some(Text.JsTrim(newEmailField))
      ensures Text.JsTrim(newUsername) == "" ==>
        call == None && shown == Some((AccountBox, Notice(JStr("Username cannot be empty."), true)))
      ensures var step := AccountDecision(newUsername, newEmailField, old(currentUserData));
        && (step.Rename? ==> call == Some(ApiClient.Call("/api/user", "PUT",
                                            ApiClient.Data(Single("username", JStr(newUsername))), true)))
        && (step.Rename? && reply.Returned? ==>
              currentUserData == SetProp(old(currentUserData), "username", JStr(newUsername)))
        && (step.SendCode? ==> call == Some(ApiClient.Call("/api/user/change-email/send-code", "POST",
                                              ApiClient.Data(Single("new_email", JStr(step.email))), true)))
        && (step.SendCode? && reply.Returned? ==> newEmailPending == Some(step.email) && codeStep)
        && (step.Rejected? || step.NoChange? ==> call == None)
      ensures darkTheme == old(darkTheme) && themeSelectValue == old(themeSelectValue)
    {
      var step := AccountDecision(newUsername, newEmailField, currentUserData);
      call := ApplyAccountStep(step, reply);
    }

    /**
     * The confirmation button: sends the pending email with the trimmed
     * code and, once that succeeds, shows the reply's message and logs out
     * (the logout timer is taken to fire).
     */
    method ConfirmEmail(w: Window, storage: LocalStorage, codeField: string, reply: ApiClient.Outcome)
      returns (call: Option<ApiClient.Call>)
      modifies this, w, storage
      ensures var failure := ConfirmCheck(old(newEmailPending), codeField);
        && (failure.Some? ==> call == None && shown == Some((AccountBox, Notice(JStr(failure.value), true))))
        && (failure.None? ==> call == Some(ApiClient.Call("/api/user/change-email/confirm", "POST",
              ApiClient.Data(JObj([("new_email", JStr(old(newEmailPending).value)), ("code", JStr(Text.JsTrim(codeField)))])), true)))
        && (failure.None? && reply.Returned? ==>
              && shown == Some((AccountBox, Notice(Prop(reply.data, "message"), false)))
              && storage.items == old(storage.items) - {ApiClient.AuthTokenKey}
              && w.navigations == old(w.navigations) + ["/login"])
        && (failure.None? && reply.Threw? ==>
              shown == Some((AccountBox, Notice(JStr(ApiClient.FailureText(reply.message,
                                   "Verification failed. Check the code.")), true))))
        && (!(failure.None? && reply.Returned?) ==>
              storage.items == old(storage.items) && w.navigations == old(w.navigations))
      ensures currentUserData == old(currentUserData) && newEmailPending == old(newEmailPending)
      ensures codeStep == old(codeStep) && darkTheme == old(darkTheme) && themeSelectValue == old(themeSelectValue)
    {
      var code := Text.JsTrim(codeField);
      var failure := ConfirmCheck(newEmailPending, codeField);
      if failure.Some? {
        shown := Some((AccountBox, Notice(JStr(failure.value), true)));
        return None;
      }
      call := Some(ApiClient.Call("/api/user/change-email/confirm", "POST",
                                  ApiClient.Data(JObj([("new_email", JStr(newEmailPending.value)), ("code", JStr(code))])), true));
      match reply {
        case Returned(response) =>
          shown := Some((AccountBox, Notice(Prop(response, "message"), false)));
          ApiClient.Logout(w, storage);
        case Threw(message) =>
          shown := Some((AccountBox, Notice(JStr(ApiClient.FailureText(message, "Verification failed. Check the code.")), true)));
      }
    }

    /**
     * The password form: checks first, then the PUT; success shows the
     * message and logs out (the logout timer is taken to fire).
     */
    method SubmitPassword(w: Window, storage: LocalStorage, currentPassword: string, newPassword: string,
                          confirmNewPassword: string, reply: ApiClient.Outcome)
      returns (call: Option<ApiClient.Call>)
      modifies this, w, storage
      ensures var failure := PasswordCheck(newPassword, confirmNewPassword);
        && (failure.Some? ==> call == None && shown == Some((SecurityBox, Notice(JStr(failure.value), true))))
        && (failure.None? ==> call == Some(ApiClient.Call("/api/user/password", "PUT",
              ApiClient.Data(JObj([("current_password", JStr(currentPassword)), ("new_password", JStr(newPassword))])), true)))
        && (failure.None? && reply.Returned? ==>
              && shown == Some((SecurityBox, Notice(JStr("Password changed successfully! Please log in again."), false)))
              && storage.items == old(storage.items) - {ApiClient.AuthTokenKey}
              && w.navigations == old(w.navigations) + ["/login"])
        && (failure.None? && reply.Threw? ==>
              shown == Some((SecurityBox, Notice(JStr(ApiClient.FailureText(reply.message,
                                   "Password change failed. Check your current password.")), true))))
        && (!(failure.None? && reply.Returned?) ==>
              storage.items == old(storage.items) && w.navigations == old(w.navigations))
      ensures currentUserData == old(currentUserData) && newEmailPending == old(newEmailPending)
      ensures codeStep == old(codeStep) && darkTheme == old(darkTheme) && themeSelectValue == old(themeSelectValue)
    {
      var failure := PasswordCheck(newPassword, confirmNewPassword);
      if failure.Some? {
        shown := Some((SecurityBox, Notice(JStr(failure.value), true)));
        return None;
      }
      call := Some(ApiClient.Call("/api/user/password", "PUT",
                                  ApiClient.Data(JObj([("current_password", JStr(currentPassword)),
                                                       ("new_password", JStr(newPassword))])), true));
      match reply {
        case Returned(_) =>
          shown := Some((SecurityBox, Notice(JStr("Password changed successfully! Please log in again."), false)));
          ApiClient.Logout(w, storage);
        case Threw(message) =>
          shown := Some((SecurityBox, Notice(JStr(ApiClient.FailureText(message,
                                          "Password change failed. Check your current password.")), true)));
      }
    }

    /**
     * The preferences button: the theme is stored and applied only after
     * the PUT has succeeded.
     */
    method SavePreferences(storage: LocalStorage, theme: string, emailAlerts: bool, lowConfidenceAlerts: bool,
                           reply: ApiClient.Outcome)
      returns (call: ApiClient.Call)
      modifies this, storage
      ensures call == ApiClient.Call("/api/user/preferences", "PUT",
                                     ApiClient.Data(PreferencesData(theme, emailAlerts, lowConfidenceAlerts)), true)
      ensures reply.Returned? ==>
        && storage.items == old(storage.items)[ThemeKey := theme]
        && (darkTheme <==> theme == "dark")
        && themeSelectValue == (if theme == "" then "light" else theme)
        && shown == Some((PreferencesBox, Notice(JStr("Preferences saved! Theme applied."), false)))
      ensures reply.Threw? ==>
        && storage.items == old(storage.items)
        && darkTheme == old(darkTheme) && themeSelectValue == old(themeSelectValue)
        && shown == Some((PreferencesBox, Notice(JStr(ApiClient.FailureText(reply.message, "Failed to save preferences.")), true)))
      ensures currentUserData == old(currentUserData) && newEmailPending == old(newEmailPending) && codeStep == old(codeStep)
    {
      call := ApiClient.Call("/api/user/preferences", "PUT",
                             ApiClient.Data(PreferencesData(theme, emailAlerts, lowConfidenceAlerts)), true);
      match reply {
        case Returned(_) =>
          storage.SetItem(ThemeKey, theme);
          ApplySavedTheme(storage);
          shown := Some((PreferencesBox, Notice(JStr("Preferences saved! Theme applied."), false)));
        case Threw(message) =>
          shown := Some((PreferencesBox, Notice(JStr(ApiClient.FailureText(message, "Failed to save preferences.")), true)));
      }
    }
  }
}
