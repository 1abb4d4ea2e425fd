/**
 * api.js: the single-key token store in localStorage, the request apiCall
 * prepares, the way it settles a response, and AuthAPI.signin/logout.
 * fetch, JSON.stringify and JSON.parse are inputs.
 */
module ApiClient {
  import opened Wrappers
  import opened JsValue
  import opened Browser
  import Ordered
  import Text

  const AuthTokenKey: string := "authToken"

  /** getAuthToken(): the stored token, or null. */
  function StoredToken(storage: LocalStorage): Option<string>
    reads storage
  {
    storage.Item(AuthTokenKey)
  }

  /** `!token` for a string-or-null token. */
  predicate HasToken(token: Option<string>) {
    token.Some? && token.value != ""
  }

  /** setAuthToken: the token is stored under the one key and every other item stays. */
  method SetAuthToken(storage: LocalStorage, token: string)
    modifies storage
    ensures StoredToken(storage) == Some(token)
    ensures storage.items == old(storage.items)[AuthTokenKey := token]
    ensures forall k | k != AuthTokenKey :: storage.Item(k) == old(storage.Item(k))
  {
    storage.SetItem(AuthTokenKey, token);
  }

  /** removeAuthToken: afterwards no token is stored and every other item stays. */
  method RemoveAuthToken(storage: LocalStorage)
    modifies storage
    ensures StoredToken(storage) == None
    ensures storage.items == old(storage.items) - {AuthTokenKey}
    ensures forall k | k != AuthTokenKey :: storage.Item(k) == old(storage.Item(k))
  {
    storage.RemoveItem(AuthTokenKey);
  }

  /** What a caller passes as `body`: a FormData or any other value (null by default). */
  datatype Body = FormData(fields: seq<(string, string)>) | Data(value: Json)

  /** What is handed to fetch as the body. */
  datatype FetchBody = FormBody(fields: seq<(string, string)>) | TextBody(text: string) | PlainBody(value: Json)

  datatype Request = Request(url: string, httpMethod: string, headers: seq<(string, string)>, body: Option<FetchBody>)

  datatype Response = Response(status: int, statusText: string, contentType: Option<string>, text: string)

  /** What fetch settles to: a response, or a rejection with the browser's message. */
  datatype Fetched = NetworkError(message: string) | Received(response: Response)

  /** What response.json() settles to. */
  datatype Parsed = ParsedJson(value: Json) | SyntaxError(message: string)

  /** How apiCall settles: the value it resolves to, or the message of the Error it throws. */
  datatype Outcome = Returned(data: Json) | Threw(message: string)

  /**
   * What a page asks apiCall for. A page handler is given how that call
   * settled as an Outcome; apiCall's own effects are ApiCall's.
   */
  datatype Call = Call(endpoint: string, httpMethod: string, body: Body, requiresAuth: bool)

  const MissingTokenMessage: string := "Authentication token missing."
  const RejectedTokenMessage: string := "Token expired or invalid (401)."
  /** What V8 throws for `data.message` when the body parsed to null. */
  const NullMessageError: string := "Cannot read properties of null (reading 'message')"

  const OperationSuccessful: Json := JObj([("message", JStr("Operation successful"))])

  /** `response.ok` */
  predicate Ok(r: Response) {
    200 <= r.status <= 299
  }

  /** `contentType && contentType.includes('application/json')` */
  predicate IsJson(r: Response) {
    r.contentType.Some? && Text.Contains(r.contentType.value, "application/json")
  }

  /**
   * The fetch options apiCall builds: a JSON body is stringified and
   * announced by Content-Type, FormData and falsy bodies pass unchanged,
   * `token` (when the call requires auth) becomes a Bearer header, and GET
   * and HEAD carry no body.
   */
  function Prepared(origin: string, endpoint: string, httpMethod: string, body: Body,
                    token: Option<string>, stringify: Json -> string): (r: Request)
    ensures r.url == origin + endpoint && r.httpMethod == httpMethod
    ensures Ordered.UniqueKeys(r.headers)
    ensures Ordered.HasKey(r.headers, "Content-Type") <==> body.Data? && Truthy(body.value)
    ensures Ordered.HasKey(r.headers, "Content-Type") ==>
      Ordered.Get(r.headers, "Content-Type") == Some("application/json")
    ensures Ordered.HasKey(r.headers, "Authorization") <==> token.Some?
    ensures token.Some? ==> Ordered.Get(r.headers, "Authorization") == Some("Bearer " + token.value)
    ensures r.body.None? <==> httpMethod == "GET" || httpMethod == "HEAD"
    ensures r.body.Some? && body.FormData? ==> r.body.value == FormBody(body.fields)
    ensures r.body.Some? && body.Data? && Truthy(body.value) ==> r.body.value == TextBody(stringify(body.value))
    ensures r.body.Some? && body.Data? && !Truthy(body.value) ==> r.body.value == PlainBody(body.value)
  {
    var json := body.Data? && Truthy(body.value);
    var contentType := if json then [("Content-Type", "application/json")] else [];
    var auth := if token.Some? then [("Authorization", "Bearer " + token.value)] else [];
    var fetchBody := match body
      case FormData(fields) => FormBody(fields)
      case Data(v) => if json then TextBody(stringify(v)) else PlainBody(v);
    assert json ==> (contentType + auth)[0].0 == "Content-Type";
    assert token.Some? ==> (contentType + auth)[|contentType|].0 == "Authorization";
    Request(origin + endpoint, httpMethod, contentType + auth,
            if httpMethod != "GET" && httpMethod != "HEAD" then Some(fetchBody) else None)
  }

  /**
   * How apiCall settles once fetch has answered: a rejected 401 on an
   * authenticated call, 204, a non-JSON body and a JSON body, each by
   * `response.ok`.
   */
  function Settle(fetched: Fetched, requiresAuth: bool, parseJson: string -> Parsed,
                  numberText: real -> string): (o: Outcome)
    ensures o.Returned? ==>
      fetched.Received? && Ok(fetched.response) && !(fetched.response.status == 401 && requiresAuth)
    ensures fetched.Received? && fetched.response.status == 401 && requiresAuth ==>
      o == Threw(RejectedTokenMessage)
    ensures fetched.Received? && fetched.response.status == 204 ==> o == Returned(OperationSuccessful)
    ensures fetched.Received? && fetched.response.status != 204 && !IsJson(fetched.response)
            && !(fetched.response.status == 401 && requiresAuth) ==>
      var r := fetched.response;
      if Ok(r) then o == Returned(JObj([("message", JStr("Operation successful")), ("raw_response", JStr(r.text))]))
      else o == Threw("API Error: " + Text.IntToString(r.status) + " " + r.statusText
                      + ". Response body: " + Text.Take(r.text, 100))
    ensures fetched.Received? && fetched.response.status != 204 && IsJson(fetched.response) && Ok(fetched.response) ==>
      (o.Returned? <==> parseJson(fetched.response.text).ParsedJson?)
      && (o.Returned? ==> o.data == parseJson(fetched.response.text).value)
    ensures fetched.Received? && IsJson(fetched.response) && !Ok(fetched.response)
            && !(fetched.response.status == 401 && requiresAuth)
            && parseJson(fetched.response.text).ParsedJson? ==>
      var data := parseJson(fetched.response.text).value;
      && (data.JNull? ==> o == Threw(NullMessageError))
      && (Truthy(Prop(data, "message")) ==> o == Threw(JsString(Prop(data, "message"), numberText)))
      && (!data.JNull? && !Truthy(Prop(data, "message")) ==>
            o == Threw("API Error: " + Text.IntToString(fetched.response.status) + " " + fetched.response.statusText))
  {
    match fetched
    case NetworkError(message) => Threw(message)
    case Received(r) =>
      if r.status == 401 && requiresAuth then Threw(RejectedTokenMessage)
      else if r.status == 204 then Returned(OperationSuccessful)
      else if !IsJson(r) then
        if !Ok(r) then
          Threw("API Error: " + Text.IntToString(r.status) + " " + r.statusText
                + ". Response body: " + Text.Take(r.text, 100))
        else Returned(JObj([("message", JStr("Operation successful")), ("raw_response", JStr(r.text))]))
      else match parseJson(r.text)
        case SyntaxError(message) => Threw(message)
        case ParsedJson(data) =>
          if Ok(r) then Returned(data)
          else if data.JNull? then Threw(NullMessageError)
          else Threw(JsString(Or(Prop(data, "message"),
                                 JStr("API Error: " + Text.IntToString(r.status) + " " + r.statusText)), numberText))
  }

  /** The text a handler shows for a thrown error: `error.message || fallback`. */
  function FailureText(message: string, fallback: string): (s: string)
    ensures message != "" ==> s == message
    ensures message == "" ==> s == fallback
  {
    if message != "" then message else fallback
  }

  /**
   * apiCall. A call that requires auth without a stored token goes to
   * /login and throws before anything is sent; a 401 on an authenticated
   * call clears the token and goes to /login. `sent` is the request handed
   * to fetch, if any.
   */
  method ApiCall(w: Window, storage: LocalStorage, endpoint: string, httpMethod: string, body: Body,
                 requiresAuth: bool, stringify: Json -> string, fetch: Request -> Fetched,
                 parseJson: string -> Parsed, numberText: real -> string)
    returns (o: Outcome, sent: Option<Request>)
    modifies w, storage
    ensures w.alerts == old(w.alerts) && w.pathname == old(w.pathname)
    ensures requiresAuth && !HasToken(old(StoredToken(storage))) ==>
      && o == Threw(MissingTokenMessage) && sent == None
      && w.navigations == old(w.navigations) + ["/login"]
      && storage.items == old(storage.items)
    ensures !(requiresAuth && !HasToken(old(StoredToken(storage)))) ==>
      && sent == Some(Prepared(w.origin, endpoint, httpMethod, body,
                               if requiresAuth then old(StoredToken(storage)) else None, stringify))
      && o == Settle(fetch(sent.value), requiresAuth, parseJson, numberText)
    ensures sent.Some? && fetch(sent.value).Received? && fetch(sent.value).response.status == 401 && requiresAuth ==>
      && storage.items == old(storage.items) - {AuthTokenKey}
      && w.navigations == old(w.navigations) + ["/login"]
    ensures sent.Some? && !(fetch(sent.value).Received? && fetch(sent.value).response.status == 401 && requiresAuth) ==>
      storage.items == old(storage.items) && w.navigations == old(w.navigations)
  {
    var url := w.origin + endpoint;
    var headers: seq<(string, string)> := [];
    var fetchBody := match body
      case FormData(fields) => FormBody(fields)
      case Data(v) => PlainBody(v);
    if body.Data? && Truthy(body.value) {
      headers := headers + [("Content-Type", "application/json")];
      fetchBody := TextBody(stringify(body.value));
    }
    var token: Option<string> := None;
    if requiresAuth {
      token := StoredToken(storage);
      if !HasToken(token) {
        w.Navigate("/login");
        return Threw(MissingTokenMessage), None;
      }
      headers := headers + [("Authorization", "Bearer " + token.value)];
    }
    var request := Request(url, httpMethod, headers,
                           if httpMethod != "GET" && httpMethod != "HEAD" then Some(fetchBody) else None);
    assert request == Prepared(w.origin, endpoint, httpMethod, body, token, stringify);
    sent := Some(request);
    var fetched := fetch(request);
    if fetched.Received? && fetched.response.status == 401 && requiresAuth {
      RemoveAuthToken(storage);
      w.Navigate("/login");
    }
    o := Settle(fetched, requiresAuth, parseJson, numberText);
  }

  /** The body AuthAPI.signin posts. */
  function Credentials(email: string, password: string): Body {
    Data(JObj([("email", JStr(email)), ("password", JStr(password))]))
  }

  /**
   * AuthAPI.signin: posts the credentials without auth and stores the
   * token only when the call resolves to a truthy value with a truthy
   * `token`. It never navigates.
   */
  method Signin(w: Window, storage: LocalStorage, email: string, password: string,
                stringify: Json -> string, fetch: Request -> Fetched,
                parseJson: string -> Parsed, numberText: real -> string)
    returns (o: Outcome)
    modifies w, storage
    ensures o == Settle(fetch(Prepared(w.origin, "/api/auth/signin", "POST", Credentials(email, password), None, stringify)),
                        false, parseJson, numberText)
    ensures o.Returned? && Truthy(o.data) && Truthy(Prop(o.data, "token")) ==>
      storage.items == old(storage.items)[AuthTokenKey := JsString(Prop(o.data, "token"), numberText)]
    ensures !(o.Returned? && Truthy(o.data) && Truthy(Prop(o.data, "token"))) ==>
      storage.items == old(storage.items)
    ensures w.navigations == old(w.navigations)
  {
    var sent;
    o, sent := ApiCall(w, storage, "/api/auth/signin", "POST", Credentials(email, password), false,
                       stringify, fetch, parseJson, numberText);
    if o.Returned? && Truthy(o.data) && Truthy(Prop(o.data, "token")) {
      storage.SetItem(AuthTokenKey, JsString(Prop(o.data, "token"), numberText));
    }
  }

  /** AuthAPI.logout: the token is removed and the page goes to /login. */
  method Logout(w: Window, storage: LocalStorage)
    modifies w, storage
    ensures StoredToken(storage) == None
    ensures storage.items == old(storage.items) - {AuthTokenKey}
    ensures w.navigations == old(w.navigations) + ["/login"]
  {
    RemoveAuthToken(storage);
    w.Navigate("/login");
  }
}
