# Session cache of lingua-francaise, in Dafny

This project models the client-side session cache of the lingua-francaise
front end. The cache has two parts.

- **The user store** (`src/stores/user.js`). It holds the in-memory `user`
  and `isLoading` refs. It mirrors the signed-in user into two browser
  storage tiers under the key `"userAuth"`: `localStorage`, the durable tier,
  and `sessionStorage`, the ephemeral tier. Its operations are `register`,
  `login`, `logout` and the `onAuthStateChanged` callback that
  `initializeAuth` installs. Provider error codes become fixed messages.
- **The router** (`src/router/index.js`). It holds the route table and the
  `beforeEach` navigation guard. The guard may restore `user` from a tier.
  It may also wipe both tiers when the stored text does not parse.

Files and modules:

- `js_values.dfy`, module `JsValues`: nullable values, how a call ended
  (returned or threw), and the truthiness test JavaScript applies to a
  `getItem` result.
- `auth_record.dfy`, module `AuthRecord`: the stored user object, the two
  record shapes, and their JSON text. `Stringify` is `JSON.stringify` of
  those shapes, escapes included. `Parse` stands for `JSON.parse`, and
  `None` means it threw. It accepts exactly the text `Stringify` writes:
  `Parse(Stringify(r)) == Some(r)`, and `Parse(s) == Some(r)` only when
  `s == Stringify(r)`. So any text it accepts is JSON that `JSON.parse`
  reads as the same record.
- `user_store.dfy`, module `UserStore`: the error-message maps, the user
  record built from a provider user, and one pure `...Step` function per
  operation (the specification). The class `Session` is the store itself,
  with fields `user`, `isLoading`, `durable` and `ephemeral`. Its methods
  update them in place and are proved to follow the step functions.
- `router.dfy`, module `Router`: the route table, lookup by name, the
  guard's specification `GuardStep`, and the imperative guard `BeforeEach`
  over a `Session`. `BeforeEach` appends every call of `next` to a list.
- `session_cache.dfy`, module `SessionCache`: properties that span
  operations. They cover restoring after a reload, the guard run twice, and
  runs of any sequence of events.

Behaviour of the code that the model keeps as written:

- The code does not keep the record in one tier only. A remembered login
  followed by a session-only login fills both tiers, and the guard then
  restores the older durable record (`StaleDurableShadowsSession`).
- A corrupted record redirects to the name `"Translate"`, not to Home.
  `"Translate"` is the component shown at Home, and no route has that name
  (`TranslateIsNoRouteName`).
- The callback writes back the bare user object, not the envelope. The
  guard then restores `authData.user`, which is `undefined`, and still lets
  the navigation through (`CallbackRewriteRestoresUndefined`).
- The callback parses the tier it reads before writing to it. On malformed
  text that parse throws out of the callback after `user` has been set, and
  nothing is written (`AuthChangedStep`).

## Model

| member | source | states |
|---|---|---|
| `AuthRecord.ParseStringify` | src/stores/user.js:80-86 | the text written for any record (envelope or bare user object) parses back to that same record |
| `AuthRecord.StringifyTruthy` | src/router/index.js:72 | a tier holding any written record is truthy, so the guard and the callback see it as present |
| `AuthRecord.StringifyParse` | src/router/index.js:76-79 | any text the parser accepts is exactly the text written for the record it yields, so nothing that `JSON.parse` would reject is accepted |
| `AuthRecord.ParseRejectsNonObject` | src/router/index.js:75-81 | empty text, or text that does not start an object, is malformed (the guard's catch branch) |
| `UserStore.RegisterMessage` | src/stores/user.js:90-101 | the register message is always one of five fixed texts, never the raw code; it is the generic text exactly when the code is not one of the four known codes |
| `UserStore.LoginMessage` | src/stores/user.js:142-158 | the login message is always one of six fixed texts; it is the generic text exactly when the code is unknown; it is "Invalid email or password." exactly for `auth/invalid-credential` and `auth/wrong-password` |
| `UserStore.MessageTables` | src/stores/user.js:93-157 | each known code gets its own fixed message; `auth/invalid-email` gets the same text from both maps |
| `UserStore.EmailPrefix` | src/stores/user.js:75 | `email.split("@")[0]` is a prefix of the email with no "@", followed in the email by "@" or by nothing |
| `UserStore.UserName` | src/stores/user.js:23 | the name is the display name when that is non-empty and non-null; otherwise it is the part of the email before the first "@" |
| `UserStore.UserRecord` | src/stores/user.js:72-77 | the user object copies uid, email and emailVerified from the provider user; its name is the display name when that is truthy, otherwise the prefix of the given email that holds no "@" and ends at its first "@" or at its end |
| `UserStore.RegisterStep` | src/stores/user.js:61-107 | on success: user set; the durable tier holds text that parses to an envelope of that user with `remember = true`; ephemeral tier untouched; result `{true, null}`. On failure: result `{false, RegisterMessage(code)}` and nothing but `isLoading` changes. `isLoading` is false afterwards on both paths |
| `UserStore.LoginStep` | src/stores/user.js:109-164 | on success: user set; only the tier chosen by `rememberMe` is written, with text that parses to an envelope of that user with `remember == rememberMe`; the other tier is untouched. On failure: `{false, LoginMessage(code)}`, with user and tiers unchanged. `isLoading` is false afterwards |
| `UserStore.LogoutStep` | src/stores/user.js:166-176 | if the provider signs out: user null and both tiers empty, whatever they held. Otherwise it throws "Logout failed" and nothing changes |
| `UserStore.AuthChangedStep` | src/stores/user.js:17-58 | no user: user null, storage untouched. With a user: user set from provider data. If both tiers are falsy, nothing is written. Otherwise the tier read is the durable one when truthy. If it does not parse, the callback throws and writes nothing. Else that tier is rewritten with text that parses to the bare user object, and the other tier is untouched |
| `UserStore.Session.constructor` | src/stores/user.js:11-13 | a new store starts with `user` null and `isLoading` false, over whatever the tiers hold |
| `UserStore.Session.Register` | src/stores/user.js:61-107 | updates the store's fields exactly as `RegisterStep` says and returns its result |
| `UserStore.Session.Login` | src/stores/user.js:109-164 | updates the store's fields exactly as `LoginStep` says and returns its result |
| `UserStore.Session.Logout` | src/stores/user.js:166-176 | updates the store's fields exactly as `LogoutStep` says and returns whether it threw |
| `UserStore.Session.AuthStateChanged` | src/stores/user.js:17-58 | updates the store's fields exactly as `AuthChangedStep` says and returns whether it threw |
| `Router.NamedRoute` | src/router/index.js:11-54 | the lookup finds a table route with the given name, or reports that no route has it |
| `Router.ProtectedRoutes` | src/router/index.js:12-53 | the routes that require auth are exactly Vocabulary, Quiz and Situations; Home, Login, Register and NotFound are public |
| `Router.RouteNamesDistinct` | src/router/index.js:14-50 | no two routes share a name |
| `Router.TranslateIsNoRouteName` | src/router/index.js:85 | "Home" is the route showing the Translate component; no route is named "Translate", the name the corrupted-record branch redirects to |
| `Router.StoredText` | src/router/index.js:76-78 | the guard parses the durable tier when it is truthy and the ephemeral tier otherwise; the text read is never empty |
| `Router.UserField` | src/router/index.js:79 | `authData.user` is the envelope's own user object for an envelope, and `undefined` for a bare user object |
| `Router.GuardStep` | src/router/index.js:62-103 | exactly one `next` call. A public target proceeds with no change. A protected target with a user proceeds with no change. Home is the redirect exactly when user and both tiers are falsy, with no change. Otherwise the stored text is parsed. On success `user := authData.user` and proceed. On failure both tiers are cleared and the redirect goes to "Translate" |
| `Router.BeforeEach` | src/router/index.js:62-103 | the guard on the store changes the fields and calls `next` exactly as `GuardStep` says; the early `return` keeps it to one call |
| `SessionCache.Reload` | src/stores/user.js:12-13 | a page load sets `user` to null and `isLoading` to false and keeps both tiers |
| `SessionCache.RegisterThenReloadRestores` | src/stores/user.js:80-86 | after a registration and a reload, a protected navigation restores the same user object and proceeds |
| `SessionCache.LoginThenReloadRestores` | src/stores/user.js:128-138 | after a login and a reload, a protected navigation restores the same user object and proceeds, unless a session-only login left an older durable record |
| `SessionCache.StaleDurableShadowsSession` | src/router/index.js:76-78 | a remembered login then a session-only login leaves both tiers filled; after a reload the guard restores the first user |
| `SessionCache.CallbackRewriteRestoresUndefined` | src/stores/user.js:43-51 | after the callback rewrites a tier with the bare user object, a reload plus a protected navigation restores `undefined` and still proceeds |
| `SessionCache.LogoutThenGuardRedirectsHome` | src/stores/user.js:169-171 | after logout, a protected navigation redirects to Home, with or without a reload |
| `SessionCache.GuardReadsDurableFirst` | src/router/index.js:76-78 | when the durable tier is truthy, the guard's decision, restored user and durable tier do not depend on the ephemeral tier |
| `SessionCache.GuardIdempotent` | src/router/index.js:72-90 | a second run of the guard on the same target leaves the state as the first run left it |
| `SessionCache.CorruptThenSignedOut` | src/router/index.js:83-86 | after the guard wipes an unparsable record, the next protected navigation redirects to Home |
| `SessionCache.OneNextCallPerNavigation` | src/router/index.js:85-101 | over any run of events, `next` is called exactly once per navigation |
| `SessionCache.ApplyKeepsIntact` | src/stores/user.js:86 | every operation, callback, navigation and reload leaves each truthy tier parseable if it was before |
| `SessionCache.IntactRunNeverCorrupt` | src/router/index.js:80-86 | from parseable tiers, no run of events ever hits the "Translate" redirect; that needs a tier damaged from outside the app |

## Left out

- The identity provider calls (`createUserWithEmailAndPassword`, `signInWithEmailAndPassword`, `signOut`, `onAuthStateChanged`) are a foreign library. Each becomes an outcome passed to the operation: a provider user, or a rejection with its `code`. `signOut` becomes a boolean. The password only goes to the provider, so it is not a parameter.
- Async sequencing is not modelled. Each operation is one atomic step, so the race between the callback and an explicit call is out of scope. So is the window in which `isLoading` is true: `Session.Register` and `Session.Login` set it and clear it within one call.
- `new Date().getTime()` is the parameter `now`, a natural number (no clock before 1970). Its text is plain decimal digits. `JSON.stringify` switches to exponent notation from 10^21 on, and no clock reading gets near that. The callback builds a timestamp and a `remember` flag but never stores them, so it takes no `now`.
- AuthRecord.Parse accepts only the exact text `JSON.stringify` writes for the two record shapes. Other valid JSON counts as malformed, although `JSON.parse` would read it. This covers whitespace, other key orders or extra keys, the escapes `\/` and `\uXXXX` beyond those `JSON.stringify` writes, and numbers with a sign, a fraction or an exponent. It also covers other values: `JSON.parse` reads a number with an `undefined` user, and on `null` the guard throws a TypeError at `.user`.
- The provider user's `email` is always a string. A null email, which makes `split` throw, is not modelled. A missing `error.code` counts as an unknown code.
- Storage exceptions (quota, disabled storage) are not modelled. Nor are cross-tab writers: each tier is one value the model reads and writes.
- vue-router is not modelled: path matching, history, and what it does with a redirect to a name it cannot resolve. The model records the argument given to `next`. The `from` argument is unused by the guard.
- `console.log` and `console.error` output is not modelled.
- Pinia and Vue reactivity (`defineStore`, `ref`) are not modelled. The store is a class with four fields, and the storage tiers are fields of it too.
- `src/main.js`, `vite.config.js` and the view components are not part of this model (bootstrap, build setup and rendering only).
