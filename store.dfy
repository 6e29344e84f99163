/**
 * The auth store as the object store/auth.js builds: mutable state fields,
 * the two mutations and the four actions as methods. Each method is proved
 * to take the state exactly where the matching function of `AuthSession`
 * says, so every lemma about those functions holds of the store.
 */
module Store {
  import opened Js
  import opened AuthSession

  class AuthStore {
    /** Whether a document and its cookies are at hand, fixed when the store is built. */
    const inBrowser: bool
    /** The `default_user` option the store was built with (undefined when absent). */
    const defaultUserOption: Value
    /** The user record `setUser` fills in, fixed when the store is built. */
    const defaultUser: map<string, Value> := DefaultUser(defaultUserOption)

    var user: map<string, Value>
    var loggedIn: bool
    var token: Option<string>
    /** The document's cookies, in a browser. */
    var cookies: Cookies
    /** The token last handed to the request layer. */
    var requestToken: Option<string>

    function Settings(): Config {
      Config(inBrowser, defaultUser)
    }

    /** The whole state, store and outside world, as one value. */
    function Current(): Session
      reads this
    {
      Session(user, loggedIn, token, cookies, requestToken)
    }

    /**
     * The object invariant: the default user has `roles` and `name`, and the
     * user record holds every key of the default user.
     */
    ghost predicate Valid()
      reads this
    {
      BaseUser.Keys <= defaultUser.Keys && HasDefaultKeys(Settings(), Current())
    }

    /**
     * `new AuthStore(opts)` with `opts.default_user` given as
     * `defaultUserOption` (undefined when absent); `cookies` and
     * `requestToken` are what the document and the request layer already hold.
     */
    constructor (inBrowser: bool, defaultUserOption: Value, cookies: Cookies, requestToken: Option<string>)
      ensures this.inBrowser == inBrowser && this.defaultUserOption == defaultUserOption
      ensures defaultUser == DefaultUser(defaultUserOption)
      ensures Current() == Initial(Settings(), cookies, requestToken)
      ensures !loggedIn && token == None && user == defaultUser
      ensures Valid()
    {
      this.inBrowser := inBrowser;
      this.defaultUserOption := defaultUserOption;
      user := DefaultUser(defaultUserOption);
      loggedIn := false;
      token := None;
      this.cookies := cookies;
      this.requestToken := requestToken;
    }

    method SetUser(u: Value)
      modifies this
      ensures Current() == AuthSession.SetUser(Settings(), old(Current()), u)
      ensures loggedIn == Truthy(u)
      ensures Valid()
    {
      user := Assign(Assign(map[], Obj(defaultUser)), u);
      loggedIn := Truthy(u);
    }

    method SetToken(t: Option<string>)
      requires Valid()
      modifies this
      ensures Current() == AuthSession.SetToken(Settings(), old(Current()), t)
      ensures Valid()
      ensures token == t && requestToken == t
    {
      token := t;
      requestToken := t;
      if inBrowser {
        if !HasToken(t) {
          cookies := cookies - {"name"};
          return;
        }
        cookies := cookies["token" := t.value];
      }
    }

    /** `request` is the cookie header of the request rendered on the server; a browser ignores it. */
    method LoadToken(request: Cookies)
      requires Valid()
      modifies this
      ensures Current() == AuthSession.LoadToken(Settings(), old(Current()), request)
      ensures Valid()
    {
      var source := if inBrowser then cookies else request;
      var t := Lookup(source, "token");
      SetToken(t);
    }

    method Fetch(request: Cookies, profile: Reply<Value>, logoutReply: Reply<Value>)
      requires Valid()
      modifies this
      ensures Current() == AuthSession.Fetch(Settings(), old(Current()), request, profile, logoutReply)
      ensures Valid()
    {
      LoadToken(request);
      if !HasToken(token) {
        return;
      }
      match profile {
        case Failure =>
          Logout(logoutReply);
        case Success(data) =>
          match Field(data, "user") {
            case Thrown => Logout(logoutReply);
            case Got(u) => SetUser(u);
          }
      }
    }

    /** `resolved` is false when the returned promise rejects. */
    method Login(request: Cookies, reply: Reply<Value>, profile: Reply<Value>, logoutReply: Reply<Value>)
      returns (resolved: bool)
      requires Valid()
      modifies this
      ensures resolved == LoginResolves(reply)
      ensures Current() == AuthSession.Login(Settings(), old(Current()), request, reply, profile, logoutReply)
      ensures Valid()
    {
      match reply {
        case Failure =>
          return false;
        case Success(data) =>
          match Field(data, "id_token") {
            case Thrown =>
              return false;
            case Got(id) =>
              SetToken(TokenValue(id));
              Fetch(request, profile, logoutReply);
              return true;
          }
      }
    }

    method Logout(reply: Reply<Value>)
      modifies this
      ensures Current() == AuthSession.Logout(Settings(), old(Current()), reply)
      ensures !loggedIn && user == defaultUser && token == None && requestToken == None
      ensures Valid()
    {
      SetUser(Null);
      match reply {
        case Success(_) => SetToken(None);
        case Failure => SetToken(None);
      }
    }
  }
}
