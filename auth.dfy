/**
 * The session: the signed-in user held in memory and three persisted keys (access token,
 * refresh token, the user as JSON). Login, logout, token refresh and the authorised request with
 * its one refresh-and-retry on 401 are specified as functions over a `World` (user, store, the
 * ordered trace of what was done, and the fetch log), and `AuthService` performs them step by step.
 */
module Auth {
  import opened Wrappers
  import opened Json
  import opened Js
  import opened Gateway

  const AccessKey: string := "accessToken"
  const RefreshKey: string := "refreshToken"
  const UserKey: string := "user"

  const LoginPath: string := "/api/mobile/auth/login"
  const LogoutPath: string := "/api/mobile/auth/logout"
  const RefreshPath: string := "/api/mobile/auth/refresh"

  const AuthorizationHeader: string := "Authorization"
  const SessionExpired: JsError := Error("Session expired")
  const LoginFailed: string := "Login failed"

  /** The persisted key/value store (Capacitor Preferences). */
  type Store = map<string, string>

  /** One observable step, in the order it happens. */
  datatype Effect =
    | Read(key: string)
    | Write(key: string, value: string)
    | Remove(key: string)
    | Publish(user: JsValue)
    | Sent(endpoint: string)

  /** The session's in-memory user, the store, the steps taken so far and the fetch calls made. */
  datatype World = World(user: JsValue, store: Store, trace: seq<Effect>, log: seq<FetchRequest>)

  predicate Authenticated(w: World) { w.user != Null }

  /** What was done stays done: a later world's trace and fetch log extend the earlier ones. */
  predicate Extends(w: World, w': World) { w.trace <= w'.trace && w.log <= w'.log }

  // ---------------------------------------------------------------------------------------------
  // Single steps

  /** Preferences.get: the value stored under key, or null. */
  function StoreGet(store: Store, key: string): (r: Option<string>)
    ensures r.Some? <==> key in store
    ensures r.Some? ==> r.value == store[key]
  {
    if key in store then Some(store[key]) else None
  }

  /** `if (result?.value)`: a stored value that is a non-empty string. */
  predicate Present(v: Option<string>) { v.Some? && v.value != "" }

  /** `result?.value || ''`. */
  function TokenOr(v: Option<string>): (token: string)
    ensures Present(v) ==> token == v.value
    ensures !Present(v) ==> token == ""
  {
    if Present(v) then v.value else ""
  }

  /** JSON.stringify(u) as it reaches the store: undefined has no JSON text and is stored as "undefined". */
  function PersistedText(u: JsValue): (text: string)
    ensures u.Val? ==> Parse(text) == Some(u.json)
    ensures u == Undefined ==> Parse(text) == None
  {
    match u
    case Undefined =>
      assert ParseValue("undefined") == None;
      "undefined"
    case Val(j) =>
      ParseOfSerialize(j);
      Serialize(j)
  }

  function ReadStep(w: World, key: string): (Option<string>, World)
  {
    (StoreGet(w.store, key), w.(trace := w.trace + [Read(key)]))
  }

  function WriteStep(w: World, key: string, value: string): World
  {
    w.(store := w.store[key := value], trace := w.trace + [Write(key, value)])
  }

  function RemoveStep(w: World, key: string): World
  {
    w.(store := w.store - {key}, trace := w.trace + [Remove(key)])
  }

  function PublishStep(w: World, u: JsValue): World
  {
    w.(user := u, trace := w.trace + [Publish(u)])
  }

  /** proxyService.sendRequest(endpoint, options), as one step of the session. */
  function CallStep(t: Transport, w: World, endpoint: string, options: Options)
    : (Result<ProxyResponse, JsError>, World)
  {
    var (r, log) := Send(t, w.log, endpoint, options);
    (r, w.(trace := w.trace + [Sent(endpoint)], log := log))
  }

  function Credentials(email: string, password: string): Json
  {
    JObj([Member("email", JStr(email)), Member("password", JStr(password))])
  }

  function TokenBody(token: string): Json
  {
    JObj([Member("refreshToken", JStr(token))])
  }

  // ---------------------------------------------------------------------------------------------
  // The operations, as functions of the world before them

  /** loadStoredUser: a stored user that parses becomes the in-memory user; anything else is ignored. */
  function LoadStoredUserSpec(w: World): (w': World)
    ensures Extends(w, w') && w'.store == w.store && w'.log == w.log
    ensures w'.user == w.user || (UserKey in w.store && w'.user.Val? && ParseJson(w.store[UserKey]) == Success(w'.user.json))
  {
    var (value, w1) := ReadStep(w, UserKey);
    if Present(value) then
      match ParseJson(value.value)
      case Success(u) => PublishStep(w1, Val(u))
      case Failure(_) => w1
    else w1
  }

  /** The message login throws for a non-ok answer: `error.error`, or "Login failed" when that is falsy. */
  function LoginError(body: Json): (r: Result<JsValue, JsError>)
    ensures body == JNull ==> r == Failure(ReadOfNull)
    ensures body != JNull && Truthy(Get(body, "error")) ==> r == Failure(Error(ToStr(Get(body, "error"))))
    ensures body != JNull && !Truthy(Get(body, "error")) ==> r == Failure(Error(LoginFailed))
  {
    match Prop(Val(body), "error")
    case Failure(e) => Failure(e)
    case Success(reason) => Failure(Error(ToStr(Or(reason, Str(LoginFailed)))))
  }

  /**
   * login: one POST of the credentials; an accepted answer stores the two tokens and the user,
   * then publishes the user; anything else throws and leaves the session as it was.
   */
  function LoginSpec(t: Transport, w: World, email: string, password: string): (r: (Result<JsValue, JsError>, World))
    ensures Extends(w, r.1) && r.1.log == w.log + [Request(t.native, t.dev, LoginPath, PostOptions(Credentials(email, password)))]
    ensures r.0.Failure? ==> r.1.store == w.store && r.1.user == w.user
    ensures r.0.Success? ==> r.1.user == r.0.value && UserKey in r.1.store && r.1.store[UserKey] == PersistedText(r.0.value)
  {
    var (sent, w1) := CallStep(t, w, LoginPath, PostOptions(Credentials(email, password)));
    match sent
    case Failure(e) => (Failure(e), w1)
    case Success(response) =>
      match response.json
      case Failure(e) => (Failure(e), w1)
      case Success(body) =>
        if !response.ok then (LoginError(body), w1)
        else if body == JNull then (Failure(ReadOfNull), w1)
        else
          var u := Get(body, "user");
          var w2 := WriteStep(w1, AccessKey, ToStr(Get(body, "accessToken")));
          var w3 := WriteStep(w2, RefreshKey, ToStr(Get(body, "refreshToken")));
          var w4 := WriteStep(w3, UserKey, PersistedText(u));
          (Success(u), PublishStep(w4, u))
  }

  /** The logout endpoint call, made only for a stored refresh token; whatever it returns is ignored. */
  function NotifySpec(t: Transport, w: World, token: Option<string>): (w': World)
    ensures Extends(w, w') && w'.store == w.store && w'.user == w.user
    ensures |w'.log| == |w.log| + (if Present(token) then 1 else 0)
  {
    if Present(token) then CallStep(t, w, LogoutPath, PostOptions(TokenBody(token.value))).1 else w
  }

  /** logout: the user is cleared first, then the keys are removed, then the refresh token is read. */
  function LogoutSpec(t: Transport, w: World): (w': World)
    ensures Extends(w, w') && w'.user == Null
  {
    var w1 := PublishStep(w, Null);
    var w2 := RemoveStep(RemoveStep(RemoveStep(w1, AccessKey), RefreshKey), UserKey);
    var (token, w3) := ReadStep(w2, RefreshKey);
    NotifySpec(t, w3, token)
  }

  /**
   * refreshToken: with a stored refresh token, one POST of it; an ok answer with a JSON body stores
   * the two tokens it carries and reports success. The user is never touched.
   */
  function RefreshSpec(t: Transport, w: World): (r: (bool, World))
    ensures Extends(w, r.1) && r.1.user == w.user && |r.1.log| <= |w.log| + 1
    ensures !r.0 ==> r.1.store == w.store
    ensures r.0 ==> r.1.store.Keys == w.store.Keys + {AccessKey, RefreshKey}
  {
    var (token, w1) := ReadStep(w, RefreshKey);
    if !Present(token) then (false, w1)
    else
      var (sent, w2) := CallStep(t, w1, RefreshPath, PostOptions(TokenBody(token.value)));
      match sent
      case Failure(_) => (false, w2)
      case Success(response) =>
        if !response.ok then (false, w2)
        else
          match response.json
          case Failure(_) => (false, w2)
          case Success(body) =>
            if body == JNull then (false, w2)
            else
              var w3 := WriteStep(w2, AccessKey, ToStr(Get(body, "accessToken")));
              (true, WriteStep(w3, RefreshKey, ToStr(Get(body, "refreshToken"))))
  }

  function Authorized(options: Options, token: string): (o: Options)
    ensures o.headers == options.headers[AuthorizationHeader := "Bearer " + token]
    ensures o.verb == options.verb && o.body == options.body
  {
    options.(headers := options.headers[AuthorizationHeader := "Bearer " + token])
  }

  /** After a 401: refresh, then one retry with the renewed token, or logout and "Session expired". */
  function RetrySpec(t: Transport, w: World, endpoint: string, options: Options)
    : (r: (Result<ProxyResponse, JsError>, World))
    ensures Extends(w, r.1) && |r.1.log| <= |w.log| + 2
    ensures r.0 == Failure(SessionExpired) || |r.1.log| == |w.log| + 2
  {
    AfterRefresh(t, endpoint, options, RefreshSpec(t, w))
  }

  /** The rest of RetrySpec once the refresh has settled with `refresh`: the retry, or the logout. */
  function AfterRefresh(t: Transport, endpoint: string, options: Options, refresh: (bool, World))
    : (r: (Result<ProxyResponse, JsError>, World))
  {
    var (refreshed, w1) := refresh;
    if refreshed then
      var (renewed, w2) := ReadStep(w1, AccessKey);
      CallStep(t, w2, endpoint, Authorized(options, TokenOr(renewed)))
    else
      (Failure(SessionExpired), LogoutSpec(t, w1))
  }

  /**
   * apiRequest: the call with the stored access token; a 401 answer leads to the refresh and at
   * most one retry.
   */
  function ApiRequestSpec(t: Transport, w: World, endpoint: string, options: Options)
    : (r: (Result<ProxyResponse, JsError>, World))
    ensures Extends(w, r.1) && |w.log| < |r.1.log| <= |w.log| + 3
  {
    var (access, w1) := ReadStep(w, AccessKey);
    var (first, w2) := CallStep(t, w1, endpoint, Authorized(options, TokenOr(access)));
    if first.Success? && first.value.status == 401 then RetrySpec(t, w2, endpoint, options)
    else (first, w2)
  }

  // ---------------------------------------------------------------------------------------------
  // The service object

  class AuthService {
    var user: JsValue
    var store: Store
    ghost var trace: seq<Effect>
    const proxy: ProxyService

    /** The session as the specification functions see it. */
    ghost function Current(): World
      reads this, proxy.net
    {
      World(user, store, trace, proxy.net.log)
    }

    /** `new AuthService()`: the user starts null, then init() loads the stored user. */
    constructor(proxy: ProxyService, store: Store)
      ensures this.proxy == proxy
      ensures Current() == LoadStoredUserSpec(World(Null, store, [], proxy.net.log))
    {
      this.proxy := proxy;
      this.user := Null;
      this.store := store;
      this.trace := [];
      new;
      LoadStoredUser();
    }

    function IsAuthenticated(): (b: bool)
      reads this
      ensures b <==> user != Null
    {
      user != Null
    }

    method ReadKey(key: string) returns (value: Option<string>)
      modifies this
      ensures (value, Current()) == ReadStep(old(Current()), key)
    {
      value := StoreGet(store, key);
      trace := trace + [Read(key)];
    }

    method WriteKey(key: string, value: string)
      modifies this
      ensures Current() == WriteStep(old(Current()), key, value)
    {
      store := store[key := value];
      trace := trace + [Write(key, value)];
    }

    method RemoveKey(key: string)
      modifies this
      ensures Current() == RemoveStep(old(Current()), key)
    {
      store := store - {key};
      trace := trace + [Remove(key)];
    }

    method Next(u: JsValue)
      modifies this
      ensures Current() == PublishStep(old(Current()), u)
    {
      user := u;
      trace := trace + [Publish(u)];
    }

    method Call(endpoint: string, options: Options) returns (r: Result<ProxyResponse, JsError>)
      modifies this, proxy.net
      ensures (r, Current()) == CallStep(proxy.Channel(), old(Current()), endpoint, options)
    {
      r := proxy.SendRequest(endpoint, options);
      trace := trace + [Sent(endpoint)];
    }

    method LoadStoredUser()
      modifies this
      ensures Current() == LoadStoredUserSpec(old(Current()))
    {
      var value := ReadKey(UserKey);
      if Present(value) {
        var parsed := ParseJson(value.value);
        if parsed.Success? {
          Next(Val(parsed.value));
        }
      }
    }

    method Login(email: string, password: string) returns (r: Result<JsValue, JsError>)
      modifies this, proxy.net
      ensures (r, Current()) == LoginSpec(proxy.Channel(), old(Current()), email, password)
    {
      var sent := Call(LoginPath, PostOptions(Credentials(email, password)));
      if sent.Failure? {
        return Failure(sent.error);
      }
      var response := sent.value;
      if response.json.Failure? {
        return Failure(response.json.error);
      }
      var body := response.json.value;
      if !response.ok {
        return LoginError(body);
      }
      if body == JNull {
        return Failure(ReadOfNull);
      }
      var u := Js.Get(body, "user");
      WriteKey(AccessKey, ToStr(Js.Get(body, "accessToken")));
      WriteKey(RefreshKey, ToStr(Js.Get(body, "refreshToken")));
      WriteKey(UserKey, PersistedText(u));
      Next(u);
      return Success(u);
    }

    /** The guarded logout endpoint call: one POST when the token is present, its outcome ignored. */
    method NotifyLogout(token: Option<string>)
      modifies this, proxy.net
      ensures Current() == NotifySpec(proxy.Channel(), old(Current()), token)
    {
      if Present(token) {
        var _ := Call(LogoutPath, PostOptions(TokenBody(token.value)));
      }
    }

    /** logout never throws. */
    method Logout()
      modifies this, proxy.net
      ensures Current() == LogoutSpec(proxy.Channel(), old(Current()))
    {
      Next(Null);
      RemoveKey(AccessKey);
      RemoveKey(RefreshKey);
      RemoveKey(UserKey);
      var token := ReadKey(RefreshKey);
      NotifyLogout(token);
    }

    method RefreshToken() returns (refreshed: bool)
      modifies this, proxy.net
      ensures (refreshed, Current()) == RefreshSpec(proxy.Channel(), old(Current()))
    {
      var token := ReadKey(RefreshKey);
      if !Present(token) {
        return false;
      }
      var sent := Call(RefreshPath, PostOptions(TokenBody(token.value)));
      if sent.Failure? || !sent.value.ok || sent.value.json.Failure? || sent.value.json.value == JNull {
        return false;
      }
      var body := sent.value.json.value;
      WriteKey(AccessKey, ToStr(Js.Get(body, "accessToken")));
      WriteKey(RefreshKey, ToStr(Js.Get(body, "refreshToken")));
      return true;
    }

    /** The 401 branch of apiRequest. */
    method Retry(endpoint: string, options: Options, headers: map<string, string>)
      returns (r: Result<ProxyResponse, JsError>)
      requires AuthorizationHeader in headers
      requires headers == options.headers[AuthorizationHeader := headers[AuthorizationHeader]]
      modifies this, proxy.net
      ensures (r, Current()) == RetrySpec(proxy.Channel(), old(Current()), endpoint, options)
    {
      ghost var w0 := Current();
      var refreshed := RefreshToken();
      ghost var refresh := (refreshed, Current());
      assert refresh == RefreshSpec(proxy.Channel(), w0);
      if refreshed {
        var renewed := ReadKey(AccessKey);
        var retried := headers[AuthorizationHeader := "Bearer " + TokenOr(renewed)];
        assert retried == Authorized(options, TokenOr(renewed)).headers;
        r := Call(endpoint, options.(headers := retried));
      } else {
        Logout();
        r := Failure(SessionExpired);
      }
    }

    method ApiRequest(endpoint: string, options: Options) returns (r: Result<ProxyResponse, JsError>)
      modifies this, proxy.net
      ensures (r, Current()) == ApiRequestSpec(proxy.Channel(), old(Current()), endpoint, options)
    {
      var access := ReadKey(AccessKey);
      var headers := options.headers[AuthorizationHeader := "Bearer " + TokenOr(access)];
      r := Call(endpoint, options.(headers := headers));
      if r.Success? && r.value.status == 401 {
        r := Retry(endpoint, options, headers);
      }
    }
  }
}
