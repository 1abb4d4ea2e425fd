/**
 * utils.js: the client's view of the session. The token's payload is read
 * without verifying anything, its `exp` decides whether the user counts as
 * logged in, and the redirect helper and the two form validators live
 * here too. atob, decodeURIComponent and JSON.parse together are the input
 * `decode`; Date.now() is the input `nowMs`.
 */
module Session {
  import opened Wrappers
  import opened JsValue
  import opened Browser
  import ApiClient
  import Text
  import UserRoutes
  import PyValue

  /** `.replace(/-/g, '+').replace(/_/g, '/')`: base64url back to base64. */
  function ToBase64(s: string): (r: string)
    ensures |r| == |s|
    ensures forall i | 0 <= i < |s| :: s[i] == '-' ==> r[i] == '+'
    ensures forall i | 0 <= i < |s| :: s[i] == '_' ==> r[i] == '/'
    ensures forall i | 0 <= i < |s| :: s[i] != '-' && s[i] != '_' ==> r[i] == s[i]
    ensures '-' !in r && '_' !in r
  {
    seq(|s|, i requires 0 <= i < |s| => if s[i] == '-' then '+' else if s[i] == '_' then '/' else s[i])
  }

  /**
   * decodeJwt. Every failure is caught and gives null: a token without a
   * '.' has no second segment, and `decode` answers None when atob,
   * decodeURIComponent or JSON.parse throws.
   */
  function DecodeJwt(token: string, decode: string -> Option<Json>): (payload: Json)
    ensures |Text.Split(token, '.')| < 2 ==> payload == JNull
    ensures |Text.Split(token, '.')| >= 2 ==>
      payload == decode(ToBase64(Text.Split(token, '.')[1])).GetOr(JNull)
  {
    var parts := Text.Split(token, '.');
    if |parts| < 2 then JNull
    else match decode(ToBase64(parts[1]))
      case None => JNull
      case Some(v) => v
  }

  /**
   * Only the payload segment is read: the header before the first '.' and
   * whatever follows the payload (the signature, or nothing) play no part.
   */
  lemma PayloadSegmentOnly(header: string, payload: string, tail: string, decode: string -> Option<Json>)
    requires '.' !in header && '.' !in payload
    requires tail == [] || tail[0] == '.'
    ensures DecodeJwt(header + "." + payload + tail, decode) == decode(ToBase64(payload)).GetOr(JNull)
  {
    var token := header + "." + payload + tail;
    var rest := payload + tail;
    assert token == header + ['.'] + rest;
    Text.SplitAfter(header, '.', rest);
    Text.SplitFirst(payload, '.', tail);
    assert Text.Split(token, '.')[1] == payload;
  }

  /** A token without any '.' never decodes. */
  lemma NoDotNoPayload(token: string, decode: string -> Option<Json>)
    requires '.' !in token
    ensures DecodeJwt(token, decode) == JNull
  {
    assert Text.Split(token, '.') == [token];
  }

  /**
   * `payload.exp > Date.now() / 1000`: the comparison converts `exp` to a
   * number (None stands for NaN, which compares false). `parseNumber` is
   * Number() on a string.
   */
  predicate ExpAfter(exp: Json, nowSeconds: real, parseNumber: string -> Option<real>) {
    match exp
    case JNum(n) => n > nowSeconds
    case JBool(b) => (if b then 1.0 else 0.0) > nowSeconds
    case JNull => 0.0 > nowSeconds
    case JStr(s) => parseNumber(s).Some? && parseNumber(s).value > nowSeconds
    case _ => false
  }

  /**
   * isLoggedIn. `getterDefined` says whether api.js has installed
   * window.getAuthToken; `token` is what it returns.
   */
  function IsLoggedIn(getterDefined: bool, token: Option<string>, decode: string -> Option<Json>,
                      parseNumber: string -> Option<real>, nowMs: real): (r: bool)
    ensures !getterDefined || !ApiClient.HasToken(token) ==> !r
    ensures r ==> Truthy(DecodeJwt(token.value, decode))
    ensures getterDefined && ApiClient.HasToken(token) ==>
      var payload := DecodeJwt(token.value, decode);
      && (Truthy(payload) && Truthy(Prop(payload, "exp")) ==>
            (r <==> ExpAfter(Prop(payload, "exp"), nowMs / 1000.0, parseNumber)))
      && (!(Truthy(payload) && Truthy(Prop(payload, "exp"))) ==> (r <==> Truthy(payload)))
  {
    if !getterDefined || !ApiClient.HasToken(token) then false
    else
      var payload := DecodeJwt(token.value, decode);
      if Truthy(payload) && Truthy(Prop(payload, "exp")) then
        ExpAfter(Prop(payload, "exp"), nowMs / 1000.0, parseNumber)
      else Truthy(payload)
  }

  /** A numeric `exp` admits the token strictly before that second and never from it on. */
  lemma NumericExpiry(token: string, decode: string -> Option<Json>, parseNumber: string -> Option<real>,
                      nowMs: real, exp: real)
    requires Truthy(DecodeJwt(token, decode)) && Prop(DecodeJwt(token, decode), "exp") == JNum(exp)
    requires token != ""
    ensures exp != 0.0 ==>
      (IsLoggedIn(true, Some(token), decode, parseNumber, nowMs) <==> nowMs < exp * 1000.0)
    ensures exp == 0.0 ==> IsLoggedIn(true, Some(token), decode, parseNumber, nowMs)
  {
    if exp != 0.0 {
      assert nowMs / 1000.0 < exp <==> nowMs < exp * 1000.0;
    }
  }

  /** Being logged in now means having been logged in at every earlier moment. */
  lemma LoggedInEarlier(getterDefined: bool, token: Option<string>, decode: string -> Option<Json>,
                          parseNumber: string -> Option<real>, earlier: real, later: real)
    requires earlier <= later
    requires IsLoggedIn(getterDefined, token, decode, parseNumber, later)
    ensures IsLoggedIn(getterDefined, token, decode, parseNumber, earlier)
  {
    var payload := DecodeJwt(token.value, decode);
    assert earlier / 1000.0 <= later / 1000.0;
    if Truthy(payload) && Truthy(Prop(payload, "exp")) {
      assert ExpAfter(Prop(payload, "exp"), later / 1000.0, parseNumber);
    }
  }

  /**
   * Where checkAuthAndRedirect sends the page: /dashboard for a logged-in
   * user when asked and not already there, /login for a logged-out one when
   * asked and not already there, and nowhere otherwise.
   */
  function AuthRedirect(loggedIn: bool, toLoginIfLoggedOut: bool, toDashboardIfLoggedIn: bool,
                        pathname: string): (target: Option<string>)
    ensures target == Some("/dashboard") <==> loggedIn && toDashboardIfLoggedIn && pathname != "/dashboard"
    ensures target == Some("/login") <==> !loggedIn && toLoginIfLoggedOut && pathname != "/login"
    ensures target.None? || target == Some("/dashboard") || target == Some("/login")
  {
    if loggedIn then
      if toDashboardIfLoggedIn && pathname != "/dashboard" then Some("/dashboard") else None
    else
      if toLoginIfLoggedOut && pathname != "/login" then Some("/login") else None
  }

  /** The navigations a redirect target adds. */
  function Visits(target: Option<string>): (s: seq<string>)
    ensures target.None? ==> s == []
    ensures target.Some? ==> s == [target.value]
  {
    if target.Some? then [target.value] else []
  }

  /** Whether the stored token counts as logged in. */
  function LoggedIn(storage: LocalStorage, getterDefined: bool, decode: string -> Option<Json>,
                    parseNumber: string -> Option<real>, nowMs: real): bool
    reads storage
  {
    IsLoggedIn(getterDefined, ApiClient.StoredToken(storage), decode, parseNumber, nowMs)
  }

  /** checkAuthAndRedirect: at most one navigation, the one AuthRedirect names. */
  method CheckAuthAndRedirect(w: Window, storage: LocalStorage, getterDefined: bool,
                              decode: string -> Option<Json>, parseNumber: string -> Option<real>, nowMs: real,
                              toLoginIfLoggedOut: bool, toDashboardIfLoggedIn: bool)
    modifies w
    ensures w.navigations == old(w.navigations) +
      Visits(AuthRedirect(LoggedIn(storage, getterDefined, decode, parseNumber, nowMs),
                          toLoginIfLoggedOut, toDashboardIfLoggedIn, old(w.pathname)))
    ensures w.alerts == old(w.alerts) && w.pathname == old(w.pathname)
  {
    if LoggedIn(storage, getterDefined, decode, parseNumber, nowMs) {
      if toDashboardIfLoggedIn && w.pathname != "/dashboard" {
        w.Navigate("/dashboard");
      }
    } else {
      if toLoginIfLoggedOut && w.pathname != "/login" {
        w.Navigate("/login");
      }
    }
  }

  /** `payload && payload.role === 'admin'` */
  predicate AdminPayload(payload: Json) {
    Truthy(payload) && Prop(payload, "role") == JStr("admin")
  }

  /** The token's payload, when a token is stored. */
  function StoredPayload(storage: LocalStorage, decode: string -> Option<Json>): Json
    reads storage
  {
    match ApiClient.StoredToken(storage)
    case None => JNull
    case Some(token) => DecodeJwt(token, decode)
  }

  /** A character the class [^\s@] admits. */
  predicate EmailChar(c: char) {
    !Text.IsJsSpace(c) && c != '@'
  }

  /**
   * The regular expression ^[^\s@]+@[^\s@]+\.[^\s@]+$ by positions: one '@'
   * with something before it, and a '.' at least one character after the
   * '@' with something after it; no whitespace and no other '@'.
   */
  predicate MatchesEmailPattern(s: string) {
    exists at, dot | 0 < at && at + 1 < dot && dot + 1 < |s| ::
      && s[at] == '@' && s[dot] == '.'
      && (forall m | 0 <= m < |s| && m != at :: EmailChar(s[m]))
  }

  /** The same test by a scan: no whitespace, a single '@' not first, a '.' inside the domain. */
  predicate WellFormedEmail(s: string) {
    && (forall m | 0 <= m < |s| :: !Text.IsJsSpace(s[m]))
    && match Text.IndexOf(s, '@')
       case None => false
       case Some(at) => 0 < at && '@' !in s[at + 1..] && at + 3 <= |s| && '.' in s[at + 2..|s| - 1]
  }

  /** validateEmail: the pattern, tested on the lowercased address. */
  predicate ValidateEmail(email: string) {
    WellFormedEmail(Text.Lower(email))
  }

  lemma WellFormedIsPattern(s: string)
    ensures WellFormedEmail(s) <==> MatchesEmailPattern(s)
  {
    if WellFormedEmail(s) {
      var at := Text.IndexOf(s, '@').value;
      var tail := s[at + 2..|s| - 1];
      var j :| 0 <= j < |tail| && tail[j] == '.';
      var dot := at + 2 + j;
      assert s[dot] == '.';
      forall m | 0 <= m < |s| && m != at
        ensures EmailChar(s[m])
      {
        if m < at {
          assert s[m] in s[..at];
        } else {
          assert s[m] == s[at + 1..][m - at - 1];
        }
      }
    }
    if MatchesEmailPattern(s) {
      var at, dot :| 0 < at && at + 1 < dot && dot + 1 < |s|
        && s[at] == '@' && s[dot] == '.'
        && (forall m | 0 <= m < |s| && m != at :: EmailChar(s[m]));
      assert '@' in s;
      var k := Text.IndexOf(s, '@').value;
      assert k == at;
      var rest := s[at + 1..];
      assert '@' !in rest by {
        forall i | 0 <= i < |rest|
          ensures rest[i] != '@'
        {
          assert rest[i] == s[at + 1 + i];
        }
      }
      assert s[at + 2..|s| - 1][dot - at - 2] == '.';
      forall m | 0 <= m < |s|
        ensures !Text.IsJsSpace(s[m])
      {
        if m != at {
          assert EmailChar(s[m]);
        }
      }
    }
  }

  /** Lowercasing moves no '@', '.' or whitespace. */
  lemma LowerKeepsPattern(s: string)
    ensures MatchesEmailPattern(Text.Lower(s)) <==> MatchesEmailPattern(s)
  {
    var l := Text.Lower(s);
    forall m | 0 <= m < |s|
      ensures (l[m] == '@' <==> s[m] == '@') && (l[m] == '.' <==> s[m] == '.')
      ensures EmailChar(l[m]) <==> EmailChar(s[m])
    {
    }
    if MatchesEmailPattern(s) {
      var at, dot :| 0 < at && at + 1 < dot && dot + 1 < |s|
        && s[at] == '@' && s[dot] == '.'
        && (forall m | 0 <= m < |s| && m != at :: EmailChar(s[m]));
      assert l[at] == '@' && l[dot] == '.';
    }
    if MatchesEmailPattern(l) {
      var at, dot :| 0 < at && at + 1 < dot && dot + 1 < |l|
        && l[at] == '@' && l[dot] == '.'
        && (forall m | 0 <= m < |l| && m != at :: EmailChar(l[m]));
      assert s[at] == '@' && s[dot] == '.';
    }
  }

  /** validateEmail accepts exactly the addresses the pattern describes. */
  lemma ValidateEmailMeaning(email: string)
    ensures ValidateEmail(email) <==> MatchesEmailPattern(email)
  {
    WellFormedIsPattern(Text.Lower(email));
    LowerKeepsPattern(email);
  }

  const MinPasswordLength: nat := 6

  /** validatePassword */
  predicate ValidatePassword(password: string) {
    |password| >= MinPasswordLength
  }

  /** The client's password rule is the server's: a password it accepts passes the route's length check. */
  lemma PasswordRuleMatchesServer(password: string)
    ensures ValidatePassword(password) <==>
      UserRoutes.PyLen(PyValue.Str(password)).value >= UserRoutes.MinPasswordLength
  {
  }
}
