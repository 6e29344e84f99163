/**
 * The auth store's session state as a value, and each mutation and action of
 * store/auth.js as a function from the state before to the state after.
 * Network results are parameters; the store's cookie jar and the token last
 * handed to the request layer are part of the state.
 */
module AuthSession {
  import opened Js

  datatype Option<T> = None | Some(value: T)

  /** How a network request settled: resolved with a response body, or rejected. */
  datatype Reply<T> = Success(payload: T) | Failure

  /** A parsed cookie string: cookie name to value. */
  type Cookies = map<string, string>

  /** What is fixed when the store is built. */
  datatype Config = Config(inBrowser: bool, defaultUser: map<string, Value>)

  /**
   * The store's state (`user`, `loggedIn`, `token`) together with the outside
   * world it writes to: the browser's cookies and the token the request layer
   * attaches to outgoing requests. JavaScript's null and undefined token are
   * both `None`.
   */
  datatype Session = Session(
    user: map<string, Value>,
    loggedIn: bool,
    token: Option<string>,
    cookies: Cookies,
    requestToken: Option<string>)

  /** `!token` is false: the token is present and not the empty string. */
  function HasToken(t: Option<string>): (b: bool)
    ensures !b <==> t == None || t == Some("")
  {
    t.Some? && t.value != ""
  }

  /** `cookies[name]` of a parsed cookie string: undefined when absent. */
  function Lookup(cookies: Cookies, name: string): (r: Option<string>)
    ensures r.Some? <==> name in cookies
    ensures r.Some? ==> r.value == cookies[name]
  {
    if name in cookies then Some(cookies[name]) else None
  }

  /** The shape every user record starts from: `{roles: [], name: null}`. */
  const BaseUser: map<string, Value> := map["roles" := Arr([]), "name" := Null]

  /** The default user: the base shape with the `default_user` option assigned over it. */
  function DefaultUser(option: Value): (r: map<string, Value>)
    ensures "roles" in r && "name" in r
    ensures r.Keys == BaseUser.Keys + OwnProps(option).Keys
    ensures forall k :: k in OwnProps(option) ==> r[k] == OwnProps(option)[k]
    ensures forall k :: k in BaseUser && k !in OwnProps(option) ==> r[k] == BaseUser[k]
    ensures !Truthy(option) ==> r == BaseUser
  {
    Assign(BaseUser, option)
  }

  /** The state right after construction. */
  function Initial(cfg: Config, cookies: Cookies, requestToken: Option<string>): (r: Session)
    ensures !r.loggedIn && r.token == None && r.user == cfg.defaultUser
    ensures r.cookies == cookies && r.requestToken == requestToken
  {
    Session(cfg.defaultUser, false, None, cookies, requestToken)
  }

  /**
   * Mutation `setUser`: the argument's own properties are assigned over the
   * default user, and `loggedIn` is the truthiness of the argument itself.
   */
  function SetUser(cfg: Config, s: Session, u: Value): (r: Session)
    ensures r.loggedIn <==> Truthy(u)
    ensures r.user.Keys == cfg.defaultUser.Keys + OwnProps(u).Keys
    ensures forall k :: k in OwnProps(u) ==> r.user[k] == OwnProps(u)[k]
    ensures forall k :: k in cfg.defaultUser && k !in OwnProps(u) ==> r.user[k] == cfg.defaultUser[k]
    ensures !Truthy(u) ==> r.user == cfg.defaultUser
    ensures r.token == s.token && r.cookies == s.cookies && r.requestToken == s.requestToken
  {
    s.(user := Assign(Assign(map[], Obj(cfg.defaultUser)), u), loggedIn := Truthy(u))
  }

  /**
   * Mutation `setToken`: stores the token and hands it to the request layer.
   * In a browser a present token is written to cookie `token`; an absent or
   * empty one removes cookie `name` (not `token`).
   */
  function SetToken(cfg: Config, s: Session, t: Option<string>): (r: Session)
    ensures r.token == t && r.requestToken == t
    ensures r.user == s.user && r.loggedIn == s.loggedIn
    ensures !cfg.inBrowser ==> r.cookies == s.cookies
    ensures cfg.inBrowser && HasToken(t) ==> Lookup(r.cookies, "token") == t
    ensures cfg.inBrowser && HasToken(t) ==>
      forall k :: k != "token" ==> Lookup(r.cookies, k) == Lookup(s.cookies, k)
    ensures cfg.inBrowser && !HasToken(t) ==> Lookup(r.cookies, "name") == None
    ensures cfg.inBrowser && !HasToken(t) ==>
      forall k :: k != "name" ==> Lookup(r.cookies, k) == Lookup(s.cookies, k)
  {
    var s' := s.(token := t, requestToken := t);
    if !cfg.inBrowser then s'
    else if !HasToken(t) then s'.(cookies := s.cookies - {"name"})
    else s'.(cookies := s.cookies["token" := t.value])
  }

  /**
   * Where `loadToken` reads cookies from: the browser's own cookies, or the
   * cookie header of the request being rendered on the server.
   */
  function CookieSource(cfg: Config, s: Session, request: Cookies): (r: Cookies)
    ensures cfg.inBrowser ==> r == s.cookies
    ensures !cfg.inBrowser ==> r == request
  {
    if cfg.inBrowser then s.cookies else request
  }

  /** Action `loadToken`: commits `setToken` with cookie `token` of the cookie source. */
  function LoadToken(cfg: Config, s: Session, request: Cookies): (r: Session)
    ensures r.token == Lookup(CookieSource(cfg, s, request), "token") && r.requestToken == r.token
    ensures r.user == s.user && r.loggedIn == s.loggedIn
    ensures cfg.inBrowser ==> Lookup(r.cookies, "token") == Lookup(s.cookies, "token")
    ensures cfg.inBrowser ==>
      r.cookies == if HasToken(r.token) then s.cookies else s.cookies - {"name"}
    ensures !cfg.inBrowser ==> r.cookies == s.cookies
  {
    SetToken(cfg, s, Lookup(CookieSource(cfg, s, request), "token"))
  }

  /**
   * Action `logout`: commits `setUser(null)`, then, whether the server call
   * resolves or rejects, `setToken(null)`.
   */
  function Logout(cfg: Config, s: Session, reply: Reply<Value>): (r: Session)
    ensures !r.loggedIn && r.user == cfg.defaultUser
    ensures r.token == None && r.requestToken == None
    ensures !cfg.inBrowser ==> r.cookies == s.cookies
    ensures cfg.inBrowser ==> Lookup(r.cookies, "token") == Lookup(s.cookies, "token")
    ensures cfg.inBrowser ==> r.cookies == s.cookies - {"name"}
  {
    var s1 := SetUser(cfg, s, Null);
    match reply
    case Success(_) => SetToken(cfg, s1, None)
    case Failure => SetToken(cfg, s1, None)
  }

  /**
   * Action `fetch`: loads the token; without one it stops there. Otherwise the
   * profile request's `user` is committed with `setUser`; a rejected request,
   * or a response body that is null or undefined (reading `.user` throws),
   * dispatches `logout` instead.
   */
  function Fetch(cfg: Config, s: Session, request: Cookies, profile: Reply<Value>, logoutReply: Reply<Value>): (r: Session)
    ensures var loaded := LoadToken(cfg, s, request);
      !HasToken(loaded.token) ==>
        r.user == s.user && r.loggedIn == s.loggedIn && r.token == loaded.token &&
        r.cookies == loaded.cookies && r.requestToken == loaded.token
    ensures var loaded := LoadToken(cfg, s, request);
      HasToken(loaded.token) && profile.Failure? ==>
        !r.loggedIn && r.user == cfg.defaultUser && r.token == None && r.requestToken == None &&
        r.cookies == (if cfg.inBrowser then s.cookies - {"name"} else s.cookies)
    ensures var loaded := LoadToken(cfg, s, request);
      HasToken(loaded.token) && profile.Success? && Field(profile.payload, "user").Got? ==>
        r.loggedIn == Truthy(Field(profile.payload, "user").value) && r.token == loaded.token &&
        r.user == SetUser(cfg, loaded, Field(profile.payload, "user").value).user &&
        r.cookies == loaded.cookies && r.requestToken == loaded.requestToken
    ensures var loaded := LoadToken(cfg, s, request);
      HasToken(loaded.token) && profile.Success? && Field(profile.payload, "user").Thrown? ==>
        !r.loggedIn && r.user == cfg.defaultUser && r.token == None && r.requestToken == None &&
        r.cookies == (if cfg.inBrowser then s.cookies - {"name"} else s.cookies)
  {
    var loaded := LoadToken(cfg, s, request);
    if !HasToken(loaded.token) then loaded
    else
      match profile
      case Failure => Logout(cfg, loaded, logoutReply)
      case Success(data) =>
        match Field(data, "user")
        case Thrown => Logout(cfg, loaded, logoutReply)
        case Got(u) => SetUser(cfg, loaded, u)
  }

  /** The user record holds at least every key of the default user. */
  predicate HasDefaultKeys(cfg: Config, s: Session) {
    cfg.defaultUser.Keys <= s.user.Keys
  }

  /** The token a login response carries; an `id_token` that is not a string counts as absent. */
  function TokenValue(v: Value): (t: Option<string>)
    ensures t.Some? <==> v.Str?
    ensures v.Str? ==> t == Some(v.s)
  {
    if v.Str? then Some(v.s) else None
  }

  /**
   * Whether `login` resolves: the credentials request resolved and reading
   * `id_token` from its body did not throw. The follow-up `fetch` never rejects.
   */
  function LoginResolves(reply: Reply<Value>): (b: bool)
    ensures b <==> reply.Success? && !(reply.payload.Undefined? || reply.payload.Null?)
  {
    reply.Success? && Field(reply.payload, "id_token").Got?
  }

  /**
   * Action `login`: on a resolved credentials request commits `setToken` with
   * the returned `id_token`, then dispatches `fetch`; on a rejection nothing
   * is committed.
   */
  function Login(cfg: Config, s: Session, request: Cookies, reply: Reply<Value>,
                 profile: Reply<Value>, logoutReply: Reply<Value>): (r: Session)
    ensures !LoginResolves(reply) ==> r == s
  {
    if !LoginResolves(reply) then s
    else
      var withToken := SetToken(cfg, s, TokenValue(Field(reply.payload, "id_token").value));
      Fetch(cfg, withToken, request, profile, logoutReply)
  }
}
