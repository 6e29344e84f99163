/**
 * Properties that relate several mutations and actions of the auth store:
 * the cookie round trip, what logout does and does not clear, and how
 * `fetch` and `login` end under each network outcome.
 */
module AuthProperties {
  import opened Js
  import opened AuthSession

  /** `loggedIn` follows the raw argument: an empty object logs in with the default user. */
  lemma SetUserEmptyObject(cfg: Config, s: Session)
    ensures var r := SetUser(cfg, s, Obj(map[]));
      r.loggedIn && r.user == cfg.defaultUser
  {
  }

  /** `setUser(null)` gives back exactly the default user, whatever was there before. */
  lemma SetUserNullRestoresDefault(cfg: Config, s: Session, u: Value)
    ensures SetUser(cfg, SetUser(cfg, s, u), Null) == SetUser(cfg, s, Null)
    ensures SetUser(cfg, s, Null).user == cfg.defaultUser
  {
  }

  /** In a browser, a token written by `setToken` is the one `loadToken` reads back. */
  lemma CookieRoundTrip(cfg: Config, s: Session, t: string, request: Cookies)
    requires cfg.inBrowser && t != ""
    ensures LoadToken(cfg, SetToken(cfg, s, Some(t)), request).token == Some(t)
    ensures LoadToken(cfg, SetToken(cfg, s, Some(t)), request) == SetToken(cfg, s, Some(t))
  {
  }

  /** In a browser, loading the token a second time changes nothing. */
  lemma LoadTokenIdempotent(cfg: Config, s: Session, request: Cookies)
    requires cfg.inBrowser
    ensures LoadToken(cfg, LoadToken(cfg, s, request), request) == LoadToken(cfg, s, request)
  {
  }

  /** On the server, `loadToken` reads only the request's cookie header and writes no cookie. */
  lemma LoadTokenOnServer(cfg: Config, s: Session, request: Cookies)
    requires !cfg.inBrowser
    ensures LoadToken(cfg, s, request) == s.(token := Lookup(request, "token"), requestToken := Lookup(request, "token"))
  {
  }

  /** Logging out twice is the same as logging out once. */
  lemma LogoutIdempotent(cfg: Config, s: Session, reply1: Reply<Value>, reply2: Reply<Value>)
    ensures Logout(cfg, Logout(cfg, s, reply1), reply2) == Logout(cfg, s, reply1)
  {
  }

  /**
   * In a browser, logout leaves cookie `token` as it was (only cookie `name`
   * is removed), so a later `loadToken` restores the token it had cleared.
   */
  lemma LogoutKeepsTokenCookie(cfg: Config, s: Session, reply: Reply<Value>, request: Cookies)
    requires cfg.inBrowser
    ensures LoadToken(cfg, Logout(cfg, s, reply), request).token == Lookup(s.cookies, "token")
  {
  }

  /** A concrete case: logged out with no token, yet `loadToken` finds one. */
  lemma LogoutThenLoadTokenFindsToken()
    ensures var cfg := Config(true, BaseUser);
      var s := Session(map["name" := Str("Ann")], true, Some("abc"), map["token" := "abc"], Some("abc"));
      var out := Logout(cfg, s, Success(Null));
      !out.loggedIn && out.token == None &&
      LoadToken(cfg, out, map[]).token == Some("abc")
  {
  }

  /**
   * Without a token, `fetch` changes only what `loadToken` changes: the token,
   * the request layer's token and, in a browser, the removal of cookie `name`.
   */
  lemma FetchWithoutToken(cfg: Config, s: Session, request: Cookies, profile: Reply<Value>, logoutReply: Reply<Value>)
    requires !HasToken(LoadToken(cfg, s, request).token)
    ensures Fetch(cfg, s, request, profile, logoutReply) == LoadToken(cfg, s, request)
    ensures !cfg.inBrowser ==>
      Fetch(cfg, s, request, profile, logoutReply) ==
      s.(token := Lookup(request, "token"), requestToken := Lookup(request, "token"))
  {
  }

  /**
   * `fetch` without a token does not log out: a session that was logged in
   * stays logged in while its token is gone.
   */
  lemma FetchWithoutTokenKeepsLogin()
    ensures var cfg := Config(false, BaseUser);
      var s := Session(map["name" := Str("Ann")], true, Some("abc"), map[], Some("abc"));
      var r := Fetch(cfg, s, map[], Failure, Failure);
      r.loggedIn && r.token == None
  {
  }

  /** With a token and a rejected profile request, `fetch` ends exactly as `logout` does. */
  lemma FetchFailureIsLogout(cfg: Config, s: Session, request: Cookies, logoutReply: Reply<Value>)
    requires HasToken(LoadToken(cfg, s, request).token)
    ensures Fetch(cfg, s, request, Failure, logoutReply) == Logout(cfg, LoadToken(cfg, s, request), logoutReply)
  {
  }

  /** A profile body that is null or undefined: reading `.user` throws, and `fetch` logs out. */
  lemma FetchNullBodyIsLogout(cfg: Config, s: Session, request: Cookies, body: Value, logoutReply: Reply<Value>)
    requires HasToken(LoadToken(cfg, s, request).token)
    requires Field(body, "user").Thrown?
    ensures Fetch(cfg, s, request, Success(body), logoutReply) == Logout(cfg, LoadToken(cfg, s, request), logoutReply)
  {
  }

  /** With a token and a readable profile body, `fetch` ends as `setUser` with the body's `user`. */
  lemma FetchSuccessSetsUser(cfg: Config, s: Session, request: Cookies, body: Value, logoutReply: Reply<Value>)
    requires HasToken(LoadToken(cfg, s, request).token)
    requires Field(body, "user").Got?
    ensures Fetch(cfg, s, request, Success(body), logoutReply) ==
            SetUser(cfg, LoadToken(cfg, s, request), Field(body, "user").value)
  {
  }

  /** A browser with a token cookie, and a profile `{user: {name: "Ann", roles: ["admin"]}}`. */
  lemma FetchAnn(cfg: Config, s: Session)
    requires cfg.inBrowser && Lookup(s.cookies, "token") == Some("t")
    ensures var profile := Obj(map["user" := Obj(map["name" := Str("Ann"), "roles" := Arr([Str("admin")])])]);
      var r := Fetch(cfg, s, map[], Success(profile), Failure);
      r.loggedIn && r.token == Some("t") &&
      "name" in r.user && r.user["name"] == Str("Ann") &&
      "roles" in r.user && r.user["roles"] == Arr([Str("admin")])
  {
  }

  /** A rejected login commits nothing. */
  lemma LoginFailureChangesNothing(cfg: Config, s: Session, request: Cookies, profile: Reply<Value>, logoutReply: Reply<Value>)
    ensures Login(cfg, s, request, Failure, profile, logoutReply) == s
    ensures Login(cfg, s, request, Success(Undefined), profile, logoutReply) == s
  {
  }

  /**
   * In a browser, a login that returns a non-empty `id_token` keeps it through
   * the follow-up `fetch`'s `loadToken`, so the profile is fetched with it.
   */
  lemma LoginInBrowser(cfg: Config, s: Session, request: Cookies, body: map<string, Value>, t: string,
                       profile: Reply<Value>, logoutReply: Reply<Value>)
    requires cfg.inBrowser
    requires "id_token" in body && body["id_token"] == Str(t) && t != ""
    ensures Login(cfg, s, request, Success(Obj(body)), profile, logoutReply) ==
            Fetch(cfg, SetToken(cfg, s, Some(t)), request, profile, logoutReply)
    ensures LoadToken(cfg, SetToken(cfg, s, Some(t)), request) == SetToken(cfg, s, Some(t))
  {
  }

  /** Login `{id_token: "abc"}` and then a profile `{user: {name: "Bob"}}`. */
  lemma LoginBob(cfg: Config, s: Session, request: Cookies)
    requires cfg.inBrowser
    ensures var r := Login(cfg, s, request, Success(Obj(map["id_token" := Str("abc")])),
                           Success(Obj(map["user" := Obj(map["name" := Str("Bob")])])), Failure);
      r.token == Some("abc") && r.loggedIn && "name" in r.user && r.user["name"] == Str("Bob")
  {
  }

  /**
   * On the server, `fetch` reloads the token from the request's cookie header,
   * so the token a login just returned is replaced; without a token there,
   * the login leaves no token and does not touch the user.
   */
  lemma LoginOnServerDropsToken(cfg: Config, s: Session, request: Cookies, reply: Reply<Value>,
                                profile: Reply<Value>, logoutReply: Reply<Value>)
    requires !cfg.inBrowser && LoginResolves(reply)
    requires !HasToken(Lookup(request, "token"))
    ensures var r := Login(cfg, s, request, reply, profile, logoutReply);
      r.token == Lookup(request, "token") && r.user == s.user && r.loggedIn == s.loggedIn
  {
  }

  /**
   * In a browser, a login whose `id_token` is missing or empty removes only
   * cookie `name`, so the follow-up `fetch` runs with the earlier `token` cookie.
   */
  lemma LoginWithoutTokenReloadsOldCookie(cfg: Config, s: Session, request: Cookies, reply: Reply<Value>,
                                          profile: Reply<Value>, logoutReply: Reply<Value>)
    requires cfg.inBrowser && LoginResolves(reply)
    requires !HasToken(TokenValue(Field(reply.payload, "id_token").value))
    ensures var withToken := SetToken(cfg, s, TokenValue(Field(reply.payload, "id_token").value));
      LoadToken(cfg, withToken, request).token == Lookup(s.cookies, "token") &&
      Login(cfg, s, request, reply, profile, logoutReply) == Fetch(cfg, withToken, request, profile, logoutReply)
  {
  }

  /**
   * The user record never loses a default key: construction establishes it,
   * `setUser` establishes it from any state, and every other operation keeps it.
   */
  lemma DefaultKeysPreserved(cfg: Config, s: Session, u: Value, t: Option<string>, request: Cookies,
                             reply: Reply<Value>, profile: Reply<Value>, logoutReply: Reply<Value>)
    ensures HasDefaultKeys(cfg, Initial(cfg, s.cookies, s.requestToken))
    ensures HasDefaultKeys(cfg, SetUser(cfg, s, u))
    ensures HasDefaultKeys(cfg, Logout(cfg, s, logoutReply))
    ensures HasDefaultKeys(cfg, s) ==> HasDefaultKeys(cfg, SetToken(cfg, s, t))
    ensures HasDefaultKeys(cfg, s) ==> HasDefaultKeys(cfg, LoadToken(cfg, s, request))
    ensures HasDefaultKeys(cfg, s) ==> HasDefaultKeys(cfg, Fetch(cfg, s, request, profile, logoutReply))
    ensures HasDefaultKeys(cfg, s) ==> HasDefaultKeys(cfg, Login(cfg, s, request, reply, profile, logoutReply))
  {
    if HasDefaultKeys(cfg, s) {
      FetchKeepsDefaultKeys(cfg, s, request, profile, logoutReply);
      LoginKeepsDefaultKeys(cfg, s, request, reply, profile, logoutReply);
    }
  }

  /** `login` keeps every default key, whichever way its requests settle. */
  lemma LoginKeepsDefaultKeys(cfg: Config, s: Session, request: Cookies, reply: Reply<Value>,
                              profile: Reply<Value>, logoutReply: Reply<Value>)
    requires HasDefaultKeys(cfg, s)
    ensures HasDefaultKeys(cfg, Login(cfg, s, request, reply, profile, logoutReply))
  {
    if LoginResolves(reply) {
      var withToken := SetToken(cfg, s, TokenValue(Field(reply.payload, "id_token").value));
      FetchKeepsDefaultKeys(cfg, withToken, request, profile, logoutReply);
    }
  }

  /** `fetch` keeps every default key, whichever way the profile request settles. */
  lemma FetchKeepsDefaultKeys(cfg: Config, s: Session, request: Cookies, profile: Reply<Value>, logoutReply: Reply<Value>)
    requires HasDefaultKeys(cfg, s)
    ensures HasDefaultKeys(cfg, Fetch(cfg, s, request, profile, logoutReply))
  {
    var loaded := LoadToken(cfg, s, request);
    if HasToken(loaded.token) && profile.Success? {
      match Field(profile.payload, "user")
      case Got(u) => assert HasDefaultKeys(cfg, SetUser(cfg, loaded, u));
      case Thrown =>
    }
  }

  /**
   * On the server, a resolved login ends exactly as a `fetch` from the state
   * before it: the `loadToken` inside `fetch` replaces the returned `id_token`
   * with the request's cookie, so that token is dropped entirely.
   */
  lemma LoginOnServerIsFetch(cfg: Config, s: Session, request: Cookies, reply: Reply<Value>,
                             profile: Reply<Value>, logoutReply: Reply<Value>)
    requires !cfg.inBrowser && LoginResolves(reply)
    ensures Login(cfg, s, request, reply, profile, logoutReply) == Fetch(cfg, s, request, profile, logoutReply)
  {
  }
}
