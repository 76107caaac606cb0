/** What the session operations promise, proved of their specification functions. */
module AuthFacts {
  import opened Wrappers
  import opened Json
  import opened Js
  import opened Gateway
  import opened Auth

  /** The response the login call resolves to. */
  function LoginReply(t: Transport, w: World, email: string, password: string): Result<ProxyResponse, JsError>
  {
    CallStep(t, w, LoginPath, PostOptions(Credentials(email, password))).0
  }

  /** A login answer that is ok and whose JSON body is not null. */
  predicate LoginAccepted(t: Transport, w: World, email: string, password: string)
  {
    var r := LoginReply(t, w, email, password);
    r.Success? && r.value.ok && r.value.json.Success? && r.value.json.value != JNull
  }

  function LoginBody(t: Transport, w: World, email: string, password: string): Json
    requires LoginAccepted(t, w, email, password)
  {
    LoginReply(t, w, email, password).value.json.value
  }

  // ---------------------------------------------------------------------------------------------
  // isAuthenticated and loadStoredUser

  /** A stored user that parses becomes the in-memory user; otherwise the user is left alone. */
  lemma LoadStoredUserOutcome(w: World)
    ensures var w' := LoadStoredUserSpec(w);
      w'.store == w.store && w'.log == w.log &&
      (if UserKey in w.store && w.store[UserKey] != "" && Parse(w.store[UserKey]).Some?
       then w'.user == Val(Parse(w.store[UserKey]).value)
       else w'.user == w.user)
  {
  }

  /** Login writes the three keys, in order, and only then sets the user, which it returns. */
  lemma LoginSucceeds(t: Transport, w: World, email: string, password: string)
    requires LoginAccepted(t, w, email, password)
    ensures var body := LoginBody(t, w, email, password);
      var u := Get(body, "user");
      var access, refresh := ToStr(Get(body, "accessToken")), ToStr(Get(body, "refreshToken"));
      var (r, w') := LoginSpec(t, w, email, password);
      r == Success(u) && w'.user == u && Authenticated(w') == (u != Null) &&
      w'.store == w.store[AccessKey := access][RefreshKey := refresh][UserKey := PersistedText(u)] &&
      w'.trace == w.trace + [Sent(LoginPath), Write(AccessKey, access), Write(RefreshKey, refresh),
                             Write(UserKey, PersistedText(u)), Publish(u)] &&
      |w'.log| == |w.log| + 1
  {
  }

  /** A user that login stored is what loadStoredUser brings back in a fresh session. */
  lemma LoginThenReload(t: Transport, w: World, email: string, password: string, log: seq<FetchRequest>)
    requires LoginAccepted(t, w, email, password)
    requires Get(LoginBody(t, w, email, password), "user") != Undefined
    ensures var (r, w') := LoginSpec(t, w, email, password);
      LoadStoredUserSpec(World(Null, w'.store, [], log)).user == r.value
  {
    var u := Get(LoginBody(t, w, email, password), "user");
    LoginSucceeds(t, w, email, password);
    var (r, w') := LoginSpec(t, w, email, password);
    SerializeHead(u.json);
    assert w'.store[UserKey] == Serialize(u.json);
    ParseJsonOfSerialize(u.json);
  }

  /** A non-ok login throws `error.error` (or "Login failed") and writes nothing. */
  lemma LoginRejected(t: Transport, w: World, email: string, password: string)
    requires var r := LoginReply(t, w, email, password); r.Success? && !r.value.ok
    ensures var (r, w') := LoginSpec(t, w, email, password);
      var json := LoginReply(t, w, email, password).value.json;
      r.Failure? && w'.user == w.user && w'.store == w.store && w'.trace == w.trace + [Sent(LoginPath)] &&
      (json.Success? && json.value.JObj? ==>
        r.error == Error(if Truthy(Get(json.value, "error")) then ToStr(Get(json.value, "error")) else LoginFailed))
  {
  }

  /** Whatever the network does, a failed login leaves the user and the store as they were. */
  lemma LoginFailureChangesNothing(t: Transport, w: World, email: string, password: string)
    ensures var (r, w') := LoginSpec(t, w, email, password);
      r.Failure? ==> w'.user == w.user && w'.store == w.store
  {
  }

  // ---------------------------------------------------------------------------------------------
  // logout

  /** After logout the user is null, the three keys are gone, other keys are kept, and nothing is fetched. */
  lemma LogoutClears(t: Transport, w: World)
    ensures var w' := LogoutSpec(t, w);
      w'.user == Null && !Authenticated(w') &&
      AccessKey !in w'.store && RefreshKey !in w'.store && UserKey !in w'.store &&
      w'.store == w.store - {AccessKey, RefreshKey, UserKey} &&
      w'.trace == w.trace + [Publish(Null), Remove(AccessKey), Remove(RefreshKey), Remove(UserKey), Read(RefreshKey)] &&
      w'.log == w.log
  {
    var w2 := RemoveStep(RemoveStep(RemoveStep(PublishStep(w, Null), AccessKey), RefreshKey), UserKey);
    assert RefreshKey !in w2.store;
  }

  /** The logout endpoint is contacted exactly when the token read after the removals is present. */
  lemma NotifyOnlyWithToken(t: Transport, w: World, token: Option<string>)
    ensures Present(token) ==>
      NotifySpec(t, w, token).log == w.log + [Request(t.native, t.dev, LogoutPath, PostOptions(TokenBody(token.value)))]
    ensures !Present(token) ==> NotifySpec(t, w, token) == w
    ensures NotifySpec(t, w, token).user == w.user && NotifySpec(t, w, token).store == w.store
  {
  }

  // ---------------------------------------------------------------------------------------------
  // refreshToken

  /** Without a stored refresh token, refresh answers false and calls nothing. */
  lemma RefreshWithoutToken(t: Transport, w: World)
    requires !Present(StoreGet(w.store, RefreshKey))
    ensures var (ok, w') := RefreshSpec(t, w);
      !ok && w'.log == w.log && w'.store == w.store && w'.user == w.user
  {
  }

  /**
   * Refresh answers true exactly when the call got an ok answer with a non-null JSON body; it then
   * overwrites both tokens, and otherwise leaves the store alone. The user is never touched.
   */
  lemma RefreshOutcome(t: Transport, w: World)
    requires Present(StoreGet(w.store, RefreshKey))
    ensures var token := w.store[RefreshKey];
      var sent := CallStep(t, w, RefreshPath, PostOptions(TokenBody(token))).0;
      var accepted := sent.Success? && sent.value.ok && sent.value.json.Success? && sent.value.json.value != JNull;
      var (ok, w') := RefreshSpec(t, w);
      ok == accepted && w'.user == w.user &&
      w'.log == w.log + [Request(t.native, t.dev, RefreshPath, PostOptions(TokenBody(token)))] &&
      (accepted ==> w'.store == w.store
         [AccessKey := ToStr(Get(sent.value.json.value, "accessToken"))]
         [RefreshKey := ToStr(Get(sent.value.json.value, "refreshToken"))]) &&
      (!accepted ==> w'.store == w.store)
  {
    var token := w.store[RefreshKey];
    var w1 := ReadStep(w, RefreshKey).1;
    assert CallStep(t, w1, RefreshPath, PostOptions(TokenBody(token))).0 ==
           CallStep(t, w, RefreshPath, PostOptions(TokenBody(token))).0;
  }

  // ---------------------------------------------------------------------------------------------
  // apiRequest

  function FirstOptions(w: World, options: Options): Options
  {
    Authorized(options, TokenOr(StoreGet(w.store, AccessKey)))
  }

  function FirstReply(t: Transport, w: World, endpoint: string, options: Options): Result<ProxyResponse, JsError>
  {
    Send(t, w.log, endpoint, FirstOptions(w, options)).0
  }

  predicate Unauthorized(r: Result<ProxyResponse, JsError>)
  {
    r.Success? && r.value.status == 401
  }

  /** The first request carries `Authorization: Bearer <stored access token, or "">`, replacing the caller's. */
  lemma ApiRequestAuthorizes(t: Transport, w: World, endpoint: string, options: Options)
    ensures var w' := ApiRequestSpec(t, w, endpoint, options).1;
      |w'.log| > |w.log| && w'.log[|w.log|] == Request(t.native, t.dev, endpoint, FirstOptions(w, options))
    ensures !t.native ==>
      Request(t.native, t.dev, endpoint, FirstOptions(w, options)).headers[AuthorizationHeader] ==
        "Bearer " + TokenOr(StoreGet(w.store, AccessKey))
  {
    ApiRequestCalls(t, w, endpoint, options);
  }

  /** Any answer but a 401, and any thrown error, is handed back unchanged after exactly one call. */
  lemma ApiRequestPassesThrough(t: Transport, w: World, endpoint: string, options: Options)
    requires !Unauthorized(FirstReply(t, w, endpoint, options))
    ensures var (r, w') := ApiRequestSpec(t, w, endpoint, options);
      r == FirstReply(t, w, endpoint, options) && |w'.log| == |w.log| + 1 &&
      w'.store == w.store && w'.user == w.user
  {
  }

  /** On a 401 with a successful refresh, the request is retried once with the renewed token, and that answer, 401 or not, is returned. */
  lemma ApiRequestRetriesOnce(t: Transport, w: World, endpoint: string, options: Options)
    requires Unauthorized(FirstReply(t, w, endpoint, options))
    requires var w2 := CallStep(t, ReadStep(w, AccessKey).1, endpoint, FirstOptions(w, options)).1;
      RefreshSpec(t, w2).0
    ensures var w2 := CallStep(t, ReadStep(w, AccessKey).1, endpoint, FirstOptions(w, options)).1;
      var w3 := RefreshSpec(t, w2).1;
      var retry := Authorized(options, TokenOr(StoreGet(w3.store, AccessKey)));
      var (r, w') := ApiRequestSpec(t, w, endpoint, options);
      |w'.log| == |w.log| + 3 && w'.log[|w.log| + 2] == Request(t.native, t.dev, endpoint, retry) &&
      w'.log == w3.log + [Request(t.native, t.dev, endpoint, retry)] &&
      r == Send(t, w3.log, endpoint, retry).0 && w'.user == w.user
  {
    var w1 := ReadStep(w, AccessKey).1;
    var w2 := CallStep(t, w1, endpoint, FirstOptions(w, options)).1;
    RefreshOutcome(t, w2);
  }

  /** On a 401 whose refresh fails, the session is logged out and "Session expired" is thrown. */
  lemma ApiRequestExpires(t: Transport, w: World, endpoint: string, options: Options)
    requires Unauthorized(FirstReply(t, w, endpoint, options))
    requires var w2 := CallStep(t, ReadStep(w, AccessKey).1, endpoint, FirstOptions(w, options)).1;
      !RefreshSpec(t, w2).0
    ensures var (r, w') := ApiRequestSpec(t, w, endpoint, options);
      r == Failure(SessionExpired) && w'.user == Null &&
      AccessKey !in w'.store && RefreshKey !in w'.store && UserKey !in w'.store
  {
    var w1 := ReadStep(w, AccessKey).1;
    var w2 := CallStep(t, w1, endpoint, FirstOptions(w, options)).1;
    LogoutClears(t, RefreshSpec(t, w2).1);
  }

  /** apiRequest makes one, two or three fetch calls, appended to the log in order. */
  lemma ApiRequestCalls(t: Transport, w: World, endpoint: string, options: Options)
    ensures var w' := ApiRequestSpec(t, w, endpoint, options).1;
      |w.log| + 1 <= |w'.log| <= |w.log| + 3 && w'.log[..|w.log|] == w.log &&
      w'.log[|w.log|] == Request(t.native, t.dev, endpoint, FirstOptions(w, options))
  {
    var w1 := ReadStep(w, AccessKey).1;
    var (first, w2) := CallStep(t, w1, endpoint, FirstOptions(w, options));
    if first.Success? && first.value.status == 401 {
      var (refreshed, w3) := RefreshSpec(t, w2);
      if Present(StoreGet(w2.store, RefreshKey)) {
        RefreshOutcome(t, w2);
      } else {
        RefreshWithoutToken(t, w2);
      }
      if !refreshed {
        LogoutClears(t, w3);
      }
    }
  }

  /** On a native device no answer is a 401, so apiRequest never refreshes or retries. */
  lemma NativeNeverRetries(t: Transport, w: World, endpoint: string, options: Options)
    requires t.native
    ensures var (r, w') := ApiRequestSpec(t, w, endpoint, options);
      r == FirstReply(t, w, endpoint, options) && |w'.log| == |w.log| + 1
  {
    NativeAlwaysOk(t, w.log, endpoint, FirstOptions(w, options));
  }

  // ---------------------------------------------------------------------------------------------
  // A scripted run: 401, then a successful refresh, then the retry

  /** The refresh answer's body: the two new tokens. */
  function RenewedBody(access: string, refresh: string): Json
  {
    JObj([Member("accessToken", JStr(access)), Member("refreshToken", JStr(refresh))])
  }

  /** The two members of the refresh body read back as the two tokens. */
  lemma RenewedTokens(access: string, refresh: string)
    ensures Get(RenewedBody(access, refresh), "accessToken") == Str(access)
    ensures Get(RenewedBody(access, refresh), "refreshToken") == Str(refresh)
  {
    var fields := RenewedBody(access, refresh).fields;
    assert |"refreshToken"| != |"accessToken"|;
    assert fields[1].key != "accessToken";
    assert fields[..1] == [Member("accessToken", JStr(access))];
    assert LastValue(fields[..1], "accessToken") == Some(JStr(access));
    assert LastValue(fields, "accessToken") == LastValue(fields[..1], "accessToken");
  }

  /** The three answers of the scripted run; `renewed` is the refresh answer's body text. */
  function Script(renewed: string, n: nat, req: FetchRequest): Reply
  {
    if n == 0 then Delivered(false, 401, "")
    else if n == 1 then Delivered(true, 200, renewed)
    else Delivered(true, 200, "")
  }

  function ScriptedTransport(renewed: string): Transport
  {
    Transport(false, true, (n: nat, req: FetchRequest) => Script(renewed, n, req))
  }

  /** The store holding an access and a refresh token. */
  function Tokens(access: string, refresh: string): Store
  {
    map[AccessKey := access, RefreshKey := refresh]
  }

  const NoOptions: Options := Options(None, map[], None)

  /** The world after the first, unauthorised call of the scripted run. */
  function AfterFirstCall(renewed: string, endpoint: string, store: Store): World
  {
    var w := World(Null, store, [], []);
    CallStep(ScriptedTransport(renewed), ReadStep(w, AccessKey).1, endpoint, FirstOptions(w, NoOptions)).1
  }

  lemma FirstCallOfScenario(renewed: string, endpoint: string, access: string, refresh: string)
    ensures var w := World(Null, Tokens(access, refresh), [], []);
      FirstOptions(w, NoOptions).headers == map[AuthorizationHeader := "Bearer " + access] &&
      Unauthorized(FirstReply(ScriptedTransport(renewed), w, endpoint, NoOptions))
    ensures var w2 := AfterFirstCall(renewed, endpoint, Tokens(access, refresh));
      |w2.log| == 1 && w2.store == Tokens(access, refresh) && w2.user == Null
  {
  }

  lemma ScenarioRefreshCall(renewed: string, w2: World, refresh: string, body: Json)
    requires ParseJson(renewed) == Success(body)
    requires |w2.log| == 1
    ensures CallStep(ScriptedTransport(renewed), w2, RefreshPath, PostOptions(TokenBody(refresh))).0 ==
      Success(ProxyResponse(true, 200, Success(body), Success(renewed)))
  {
  }

  lemma ScenarioRefreshes(renewed: string, w2: World, access: string, refresh: string, newAccess: string, newRefresh: string)
    requires ParseJson(renewed) == Success(RenewedBody(newAccess, newRefresh)) && Present(Some(refresh))
    requires w2.store == Tokens(access, refresh) && |w2.log| == 1
    ensures var (ok, w3) := RefreshSpec(ScriptedTransport(renewed), w2);
      ok && AccessKey in w3.store && w3.store[AccessKey] == newAccess && |w3.log| == 2 &&
      w3.log[1].url == RefreshPath
  {
    var t := ScriptedTransport(renewed);
    var body := RenewedBody(newAccess, newRefresh);
    ScenarioRefreshCall(renewed, w2, refresh, body);
    RenewedTokens(newAccess, newRefresh);
    RefreshOutcome(t, w2);
  }

  /**
   * With two stored tokens and that script, apiRequest fetches three times: the first call with the
   * old access token, then the refresh, then the retry with the new access token, whose answer it returns.
   */
  lemma RefreshScenario(endpoint: string, renewed: string, access: string, refresh: string, newAccess: string, newRefresh: string)
    requires ParseJson(renewed) == Success(RenewedBody(newAccess, newRefresh)) && refresh != ""
    ensures var (r, w') := ApiRequestSpec(ScriptedTransport(renewed), World(Null, Tokens(access, refresh), [], []), endpoint, NoOptions);
      |w'.log| == 3 &&
      AuthorizationHeader in w'.log[0].headers && w'.log[0].headers[AuthorizationHeader] == "Bearer " + access &&
      w'.log[1].url == RefreshPath && w'.log[2].url == endpoint &&
      AuthorizationHeader in w'.log[2].headers && w'.log[2].headers[AuthorizationHeader] == "Bearer " + newAccess &&
      r.Success? && r.value.status == 200
  {
    var t := ScriptedTransport(renewed);
    var w := World(Null, Tokens(access, refresh), [], []);
    FirstCallOfScenario(renewed, endpoint, access, refresh);
    var w2 := AfterFirstCall(renewed, endpoint, Tokens(access, refresh));
    ScenarioRefreshes(renewed, w2, access, refresh, newAccess, newRefresh);
    var w3 := RefreshSpec(t, w2).1;
    var retry := Authorized(NoOptions, TokenOr(StoreGet(w3.store, AccessKey)));
    assert retry.headers == map[AuthorizationHeader := "Bearer " + newAccess];
    ApiRequestRetriesOnce(t, w, endpoint, NoOptions);
    ApiRequestAuthorizes(t, w, endpoint, NoOptions);
    var (r, w') := ApiRequestSpec(t, w, endpoint, NoOptions);
    assert w'.log == w3.log + [Request(false, true, endpoint, retry)];
    assert w'.log[1] == w3.log[1];
    assert r == Send(t, w3.log, endpoint, retry).0;
  }
}
