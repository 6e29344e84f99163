# Auth store model

A Dafny model of the authentication store of `store/auth.js`: a session state
(`user`, `loggedIn`, `token`) with two mutations (`setUser`, `setToken`) and
four actions (`loadToken`, `fetch`, `login`, `logout`), together with the two
pieces of the outside world the store writes to: the browser's cookies and the
token handed to the request layer.

The project has four modules:

- `Js` (`js.dfy`): the JavaScript value semantics the store relies on:
  truthiness (`Boolean(v)`), the own properties `Object.assign` copies
  (including the index keys `"0"`, `"1"`, … of strings and arrays), and
  reading a property, which throws on null and undefined.
- `AuthSession` (`auth_session.dfy`): the state as a value and every mutation
  and action as a function from the state before to the state after. Network
  results are `Reply` parameters (`Success(body)` or `Failure`); whether the
  store runs in a browser and its default user form a `Config`; the request
  cookie header that server-side rendering supplies is a parameter.
- `AuthProperties` (`auth_properties.dfy`): lemmas relating several operations.
- `Store` (`store.dfy`): the class `AuthStore` with mutable fields, whose
  methods update them in place as the source does, each proved to end in the
  state the matching `AuthSession` function gives.

Behaviour kept exactly as the code has it, which a reader of the store might
not expect:

- `setToken` with a falsy token removes the cookie named `name`, not `token`
  (`store/auth.js:58`). So logout does not remove the token cookie, and in a
  browser a later `loadToken` brings the token back
  (`LogoutKeepsTokenCookie`, `LogoutThenLoadTokenFindsToken`). For the same
  reason, in a browser every `loadToken` that finds no non-empty `token`
  cookie deletes a cookie called `name`, which may belong to the application;
  so does every `fetch` without a token, which also resets the request
  layer's token (`AuthSession.LoadToken`, `FetchWithoutToken`).
- `fetch` catches every failure of the profile request, so `login` rejects only
  when the credentials request rejects or its body is null or undefined; a
  failed profile fetch after a login does not reach the caller.
- `fetch` without a token leaves `loggedIn` as it was; it is false afterwards
  only if it was false before (`FetchWithoutTokenKeepsLogin`).
- A profile response whose body is null or undefined throws inside the
  success handler and is handled like a rejected request: `fetch` logs out.
- On the server, the `fetch` that `login` runs reloads the token from the
  request's cookie header, replacing the `id_token` just stored: a resolved
  login ends exactly as a `fetch` from the state before it
  (`LoginOnServerIsFetch`), so without a token cookie in the request it ends
  with no token (`LoginOnServerDropsToken`).

## Model

| member | source | states |
|---|---|---|
| Js.Assign | store/auth.js:43 | `Object.assign` onto a record: the result's keys are the target's and the source's own keys, supplied keys win, the rest keep the target's values, and a falsy source leaves the target unchanged |
| Js.OwnProps | store/auth.js:43 | an object contributes exactly its own properties, a string or array exactly its index keys, and undefined, null, booleans and numbers contribute nothing |
| Js.IndexProps | store/auth.js:43 | a string or array argument spreads into keys `"0"`, `"1"`, …, each mapped to its element; distinct indices never collide |
| Js.IndexPropsKeys | store/auth.js:43 | the index keys are exactly the keys a string or array contributes |
| Js.Field | store/auth.js:90-91 | reading `.user` or `.id_token` throws exactly on a null or undefined body, gives an object's own value, and is undefined otherwise |
| Js.Truthy | store/auth.js:46 | the falsy values are exactly undefined, null, false, 0 and the empty string |
| AuthSession.HasToken | store/auth.js:85 | `!token` holds exactly for an absent token or the empty string |
| AuthSession.Lookup | store/auth.js:74-75 | `cookies.token` is present exactly when the parsed cookies have that name, and is then its value |
| AuthSession.CookieSource | store/auth.js:73 | the cookies come from the document in a browser and from the request's cookie header otherwise |
| AuthSession.LoginResolves | store/auth.js:98-101 | `login` resolves exactly when the credentials request resolves with a body that is neither null nor undefined |
| AuthSession.DefaultUser | store/auth.js:20-21 | the default user always has `roles` and `name`; keys of `default_user` override, `roles` and `name` keep `[]` and `null` when not supplied, and with no option it is exactly `{roles: [], name: null}` |
| AuthSession.Initial | store/auth.js:20-29 | a new store is logged out, has no token and holds the default user |
| AuthSession.SetUser | store/auth.js:41-47 | `loggedIn` is true iff the raw argument is truthy; the user has every default key, supplied keys override defaults, a falsy argument gives exactly the default user; token and cookies are untouched |
| AuthSession.SetToken | store/auth.js:49-62 | the stored token and the request layer's token both equal the argument; off the browser the cookies are unchanged; in a browser a non-empty token is written to cookie `token` and every other cookie kept, while a falsy one removes only cookie `name` |
| AuthSession.LoadToken | store/auth.js:71-78 | the token becomes cookie `token` of the browser's cookies or of the request's header; user and login flag are unchanged, cookie `token` is never altered, and in a browser the jar is unchanged when a non-empty token is found and otherwise loses only cookie `name` |
| AuthSession.Fetch | store/auth.js:80-95 | without a loaded token user and login flag are unchanged; with one, a rejected request ends logged out with the default user and no token, with the cookies as before apart from the removal of cookie `name` in a browser, a body that is null or undefined ends the same way, and a readable body sets user and `loggedIn` as `setUser` of its `user` while keeping the loaded token and cookies |
| AuthSession.TokenValue | store/auth.js:99 | a token is present exactly when `id_token` is a string, and it is then that string |
| AuthSession.Login | store/auth.js:97-102 | a rejected login, or one whose body is null or undefined, changes nothing |
| AuthSession.Logout | store/auth.js:104-116 | whatever the server replies, logout ends logged out with the default user, no token and no request-layer token; off the browser the cookies are unchanged, in a browser only cookie `name` is removed and cookie `token` is left as it was |
| Store.AuthStore.constructor | store/auth.js:13-29 | the store starts in the initial state with the default user built from `default_user`, and the default user has `roles` and `name`, and the user record holds every default key |
| Store.AuthStore.SetUser | store/auth.js:41-47 | updates user and login flag in place to the state `AuthSession.SetUser` gives; `loggedIn` is the argument's truthiness |
| Store.AuthStore.SetToken | store/auth.js:49-62 | updates token, request-layer token and cookies in place to the state `AuthSession.SetToken` gives |
| Store.AuthStore.LoadToken | store/auth.js:71-78 | commits the cookie source's token, reaching the state `AuthSession.LoadToken` gives |
| Store.AuthStore.Fetch | store/auth.js:80-95 | the sequence load token, then stop, set user or log out, reaches the state `AuthSession.Fetch` gives |
| Store.AuthStore.Login | store/auth.js:97-102 | resolves exactly when the credentials request does and its body can be read, and reaches the state `AuthSession.Login` gives |
| Store.AuthStore.Logout | store/auth.js:104-116 | always ends logged out, with the default user and no token, as `AuthSession.Logout` gives |
| AuthProperties.SetUserEmptyObject | store/auth.js:41-47 | `setUser({})` logs in although the user record is just the default: the flag follows the argument, not the merged record |
| AuthProperties.SetUserNullRestoresDefault | store/auth.js:43 | `setUser(null)` restores exactly the default user whatever was set before |
| AuthProperties.CookieRoundTrip | store/auth.js:57-60 | in a browser, `setToken(t)` with non-empty `t` followed by `loadToken` leaves token `t` and changes nothing more |
| AuthProperties.LoadTokenIdempotent | store/auth.js:71-78 | in a browser, loading the token twice is the same as once |
| AuthProperties.LoadTokenOnServer | store/auth.js:73-77 | on the server, `loadToken` sets the token from the request's header and changes nothing else |
| AuthProperties.LogoutIdempotent | store/auth.js:104-116 | logging out twice is the same as once |
| AuthProperties.LogoutKeepsTokenCookie | store/auth.js:57-58 | in a browser, after logout `loadToken` finds whatever token cookie there was before, since only cookie `name` is removed |
| AuthProperties.LogoutThenLoadTokenFindsToken | store/auth.js:58 | a concrete logged-out state where `loadToken` still finds token `abc` |
| AuthProperties.FetchWithoutToken | store/auth.js:80-87 | without a token, `fetch` makes no request and changes only what `loadToken` changes |
| AuthProperties.FetchWithoutTokenKeepsLogin | store/auth.js:84-87 | a logged-in session whose token cookie is gone stays logged in after `fetch` |
| AuthProperties.FetchFailureIsLogout | store/auth.js:92-94 | with a token and a rejected profile request, `fetch` ends exactly as `logout` |
| AuthProperties.FetchNullBodyIsLogout | store/auth.js:90-94 | a profile body that is null or undefined throws in the handler and also ends as `logout` |
| AuthProperties.FetchSuccessSetsUser | store/auth.js:90-91 | with a token and any readable profile body, `fetch` ends as `setUser` with the body's `user` (undefined when absent) |
| AuthProperties.FetchAnn | store/auth.js:80-95 | a profile `{user: {name: "Ann", roles: ["admin"]}}` logs in with that name and those roles |
| AuthProperties.LoginFailureChangesNothing | store/auth.js:97-102 | a rejected login or one with an undefined body leaves the state unchanged |
| AuthProperties.LoginInBrowser | store/auth.js:97-101 | in a browser a non-empty `id_token` survives the follow-up `loadToken`, so `login` is `setToken` then `fetch` with that token |
| AuthProperties.LoginBob | store/auth.js:97-101 | login returning `abc` then a profile named Bob ends with token `abc`, logged in, name Bob |
| AuthProperties.LoginOnServerDropsToken | store/auth.js:97-101 | on the server, when the request carries no token, a login ends with no token and the user untouched |
| AuthProperties.LoginOnServerIsFetch | store/auth.js:97-101 | on the server a resolved login ends exactly as `fetch` from the state before it, whatever the request's cookie header holds: the returned `id_token` leaves no trace |
| AuthProperties.LoginWithoutTokenReloadsOldCookie | store/auth.js:97-101 | in a browser, a login without a usable `id_token` fetches with the earlier `token` cookie |
| AuthProperties.DefaultKeysPreserved | store/auth.js:21-47 | the user record never lacks a key of the default user: construction, `setUser` and `logout` establish it and every other operation keeps it |
| AuthProperties.FetchKeepsDefaultKeys | store/auth.js:80-95 | `fetch` never removes a default key from the user record, whatever the profile reply |
| AuthProperties.LoginKeepsDefaultKeys | store/auth.js:97-102 | `login` never removes a default key from the user record, whatever the replies |

## Left out

- Cookie parsing and serialisation (the `cookie` and `js-cookie` libraries): cookies are a map from name to value; the document's cookie string is the store's `cookies` field and the request's cookie header is a map parameter (an absent header is the empty map).
- The `token_cookie` option: it is passed to the cookie library unread. Its path, domain, secure and expiry settings decide whether the cookie written at `store/auth.js:60` is visible to `document.cookie` and which cookie `store/auth.js:58` removes; the model assumes they never interfere, so that a cookie written is the cookie read (`CookieRoundTrip` rests on this).
- JavaScript's null and undefined token are one value, `None`: `loadToken` without a cookie stores undefined and `logout` stores null, which the model does not tell apart.
- The server-rendering context is a module-level constant read once when the module loads, so the cookie header `loadToken` reads comes from whichever render loaded it; the per-call `request` parameter assumes the module is evaluated once per request.
- Js.Assign: a source's own `__proto__` key (one `JSON.parse` creates from a body containing it) is copied as an ordinary key, whereas `Object.assign` sets the target's prototype instead.
- The HTTP client and its `setToken`, `$get` and `$post` (`plugins/axios` is not part of this model): each request is a `Reply` parameter, `$get` and `$post` are taken to resolve to the response body, and the request layer's token is a field. The login `fields` only go into the request and appear only through that reply.
- Promises and the scheduling of overlapping `fetch`, `login` and `logout` calls: each action runs to completion; the race between interleaved completions is not modelled.
- Detecting the browser and the server-rendering context (`typeof window`, `__VUE_SSR_CONTEXT__`): browser mode is fixed at construction, and the TypeError when neither context exists is not modelled.
- The state-store framework's `commit` and `dispatch` and the empty `getters`: mutations and actions are called directly.
- The sharing of one user object between the default state and the live state after construction: the default user is an immutable value.
- Js.Value: numbers are integers (NaN, -0 and fractions are not modelled), and strings are sequences of characters rather than UTF-16 code units.
- AuthSession.TokenValue: an `id_token` that is not a string (a number, boolean, array or object) is treated as absent, whereas the source would store it as it is.
- Js.Field: properties inherited from prototypes are not modelled; the store reads only `user` and `id_token`.
