# Client-side authentication session of a Next.js application

This project models, in Dafny, the session bookkeeping of a Next.js front end
that signs users in against an authentication service, keeps an access token
and a refresh token in two cookies, attaches the access token to API requests
as an `Authorization: Bearer` header, renews it transparently when the server
answers 401 `token.expired`, keeps open tabs in step through a
`BroadcastChannel` named `"auth"`, guards server-rendered pages, and offers a
permission check over the signed-in user's permissions and roles.

Modules, one per source file, plus three shared ones:

- `Wrappers` — `Option` and `Result`.
- `Credentials` — the cookie jar (`ignite-next-auth.token`,
  `ignite-next-auth.refreshToken`, thirty days, path `/`), JavaScript
  truthiness of a cookie value, and the bearer header value.
- `Users` — the user record.
- `Permissions` (`utils/validateUserPermissions.ts`) — the all-of membership
  check, proved equal to the set-based meaning `Grants`.
- `Can` (`hooks/useCan.ts`) — the same check behind the signed-in guard; the
  user that the hook reads from the context is a parameter.
- `Auth` (`contexts/AuthContext.tsx`) — the tab's state as a `TabState`
  value, each operation as a step function (`SignOutStep`, `SignInStep`,
  `RestoreStep`, `MountStep`, `MessageStep`), and a `BrowserTab` class whose
  methods change the fields in the source's order and are proved to take
  exactly those steps.
- `Api` (`services/api.ts`) — the response interceptor's renewal coordinator
  as a class `ApiClient` with the flag `isRefreshingToken` and the FIFO
  `failedRequestsQueue`. Its events are `OnFailure`, `RefreshSucceeds` and
  `RefreshFails`. The object invariant `Valid()` states two things. At most
  one renewal is in flight, and only while the flag is set. Every request
  ever suspended has either been settled once, in arrival order, with the
  verdict of the renewal it waited on, or is still queued behind the renewal
  in flight. `AllSettledWhenIdle` derives from it that, once no renewal is in
  flight, every suspended request has been settled exactly once.
- `SsrAuth` (`utils/withSSRAuth.ts`) — the guard as a function of the
  request's cookies and the handler's outcome.

Behaviours of the code the model keeps:

- The `catch` of the refresh call (services/api.ts:68-73) only rejects the
  queued requests. It does not sign out and raises no "invalid token" error.
  The refresh call itself goes through the same client (services/api.ts:35),
  so a 401 answer to it with another code would first pass through the
  interceptor's sign-out branch; that re-entry is not modelled (see
  "## Left out").
- No branch distinguishes a server context from a browser context.
- The guard swallows a handler exception other than `AuthTokenError`. It
  resolves to `undefined` and does not propagate the exception.
- The user stored on sign-in carries the email typed into the form. The
  server's response supplies only the permissions and roles.
- `signOut` leaves the user state and the default header as they were.

Posting on the channel can throw. Before the provider mounts, `authChannel`
is undefined, so the post throws a `TypeError`. After a received "signOut"
has closed the channel, the post throws an `InvalidStateError`, as the HTML
standard requires of a closed `BroadcastChannel`. The model keeps both cases.
A `signOut` that throws has already destroyed the cookies but never
navigates. A sign-in whose post throws has already done everything else, and
its `catch` swallows the exception.

## Model

| member | source | states |
|---|---|---|
| `Credentials.StoreTokens` | contexts/AuthContext.tsx:88-100 | both tokens read back under their keys with maxAge 2592000 and path "/", every other cookie unchanged in value, maxAge and path |
| `Credentials.ClearTokens` | contexts/AuthContext.tsx:33-34 | neither token reads back after the two `destroyCookie` calls, every other cookie unchanged in value, maxAge and path |
| `Credentials.ClearTokensIdempotent` | contexts/AuthContext.tsx:33-34 | destroying the two cookies twice leaves what destroying them once leaves |
| `Credentials.ClearAfterStore` | contexts/AuthContext.tsx:88-100 | a store followed by a clear leaves the cookies a clear alone would |
| `Permissions.Every` | utils/validateUserPermissions.ts:18-20 | `every`/`includes` is true iff each required string occurs in the held list |
| `Permissions.ValidateUserPermissions` | utils/validateUserPermissions.ts:12-36 | true iff every required permission is among the user's permissions and every required role among its roles; absent and empty lists impose nothing |
| `Permissions.NothingRequiredPasses` | utils/validateUserPermissions.ts:17-35 | with both lists empty or absent, every user passes |
| `Permissions.MissingPermissionFails` | utils/validateUserPermissions.ts:17-25 | one required permission not exactly in `user.permissions` fails the check |
| `Permissions.MissingRoleFails` | utils/validateUserPermissions.ts:27-33 | one required role not exactly in `user.roles` fails the check |
| `Permissions.OrderAndDuplicatesIrrelevant` | utils/validateUserPermissions.ts:17-35 | order and repetition in required or held lists do not change the verdict |
| `Permissions.MoreGrantsKeepPassing` | utils/validateUserPermissions.ts:17-35 | granting the user more permissions or roles never turns true into false |
| `Permissions.MoreRequirementsKeepFailing` | utils/validateUserPermissions.ts:17-35 | requiring more never turns false into true |
| `Permissions.CreateWithoutEdit` | utils/validateUserPermissions.ts:17-25 | holding only "users.create": requiring it passes, requiring it and "users.edit" fails |
| `Can.UseCan` | hooks/useCan.ts:9-35 | false when nobody is signed in; otherwise true iff all required permissions and roles are held |
| `Can.UseCanAgreesWithValidate` | hooks/useCan.ts:16-34 | for a signed-in user the hook equals `validateUserPermissions` |
| `Can.SignedInNothingRequired` | hooks/useCan.ts:16-34 | signed in with nothing required gives true |
| `Can.UseCanMonotone` | hooks/useCan.ts:12-34 | monotone in grants, anti-monotone in requirements, false when signed out |
| `Auth.IsAuthenticated` | contexts/AuthContext.tsx:43 | authenticated iff a user is present |
| `Auth.SignOutStep` | contexts/AuthContext.tsx:32-39 | both tokens gone, every other cookie kept whole, user and header kept; "signOut" posted and route "/" unless posting throws, in which case route and posts are kept |
| `Auth.SignInStep` | contexts/AuthContext.tsx:79-116 | on success: both tokens stored, user = typed email with returned permissions and roles, header `Bearer <token>`, route "/dashboard", "signIn" posted on an open channel; on failure nothing changes |
| `Auth.RestoreStep` | contexts/AuthContext.tsx:63-77 | no token: nothing; token and `/me` success: user from the answer; token and failure: the sign-out step |
| `Auth.MountStep` | contexts/AuthContext.tsx:45-46 | the channel is open after mounting and nothing else changes |
| `Auth.MessageStep` | contexts/AuthContext.tsx:48-60 | "signOut": sign-out step (which re-posts "signOut") then channel closed; "signIn": reload; anything else: no change |
| `Auth.SignOutIdempotent` | contexts/AuthContext.tsx:32-39 | a second sign-out leaves cookies, route and user as the first left them |
| `Auth.RestoreAfterSignOutIsIdle` | contexts/AuthContext.tsx:63-77 | after a sign-out the startup effect does not ask `/me` and changes nothing |
| `Auth.SignInAuthenticates` | contexts/AuthContext.tsx:102-106 | a successful sign-in authenticates, and a restart asks `/me` iff the returned token is non-empty |
| `Auth.StepsKeepTokensPaired` | contexts/AuthContext.tsx:32-116 | every step keeps the two cookies both present or both absent |
| `Auth.BrowserTab.constructor` | contexts/AuthContext.tsx:41-43 | a tab starts with no user, no header, no channel, nothing posted |
| `Auth.BrowserTab.PostMessage` | contexts/AuthContext.tsx:36 | appends the message on an open channel, otherwise reports what is thrown and changes nothing |
| `Auth.BrowserTab.SignOut` | contexts/AuthContext.tsx:32-39 | takes exactly `SignOutStep` |
| `Auth.BrowserTab.SignIn` | contexts/AuthContext.tsx:79-116 | takes exactly `SignInStep` |
| `Auth.BrowserTab.Restore` | contexts/AuthContext.tsx:63-77 | requests `/me` iff the token cookie is truthy, and takes exactly `RestoreStep` |
| `Auth.BrowserTab.Mount` | contexts/AuthContext.tsx:45-61 | takes exactly `MountStep` |
| `Auth.BrowserTab.OnMessage` | contexts/AuthContext.tsx:48-60 | takes exactly `MessageStep` |
| `Auth.PostFailure` | contexts/AuthContext.tsx:36 | posting throws nothing iff the channel is open: a TypeError while `authChannel` is undefined, an InvalidStateError once it is closed |
| `Auth.PostStep` | contexts/AuthContext.tsx:36 | a post that does not throw appends the message and changes nothing else; one that throws changes nothing |
| `Api.Settle` | services/api.ts:80-89 | `onSuccess(token)` reissues the request with `Bearer <token>`, `onFailure(error)` rejects it with that error, both for the ticket of the given renewal |
| `Api.WithBearer` | services/api.ts:82 | the replayed request carries `Authorization: Bearer <token>`, other headers and the URL unchanged |
| `Api.Drain` | services/api.ts:63-72 | each queued entry is settled once, in queue order, all with the same verdict |
| `Api.SettledDrain` | services/api.ts:63-72 | draining a queue settles exactly the tickets waiting in it, in order |
| `Api.OneRenewalAtATime` | services/api.ts:32-33 | at most one renewal is in flight, and one is exactly while `isRefreshingToken` is set |
| `Api.AllSettledWhenIdle` | services/api.ts:63-90 | with no renewal in flight, every request ever suspended has been settled exactly once, in arrival order |
| `Api.ApiClient.constructor` | services/api.ts:7-16 | flag false, queue empty, default header `Bearer ` + stored token (or "undefined") |
| `Api.ApiClient.OnFailure` | services/api.ts:24-97 | non-401: rejected with the same error, nothing else changes; 401 other code: sign-out then rejection (or the sign-out's exception), queue and flag untouched; 401 "token.expired": one entry appended, a renewal with the stored refresh token started iff none was in flight, flag set |
| `Api.ApiClient.RefreshSucceeds` | services/api.ts:39-76 | both cookies rewritten (30 days, "/"), header `Bearer <token>`, every queued request reissued with it in FIFO order, queue empty, flag false |
| `Api.ApiClient.RefreshFails` | services/api.ts:68-76 | every queued request rejected with the same error in FIFO order, queue empty, flag false, cookies and header untouched |
| `Api.ApiClient.Finish` | services/api.ts:63-76 | the drain loop plus `failedRequestsQueue = []` and the `finally`, keeping the invariant |
| `Api.TwoExpiredRequestsShareOneRenewal` | services/api.ts:32-90 | two expired failures share one refresh call with the stored refresh token, and both are reissued with `Bearer T2` in order |
| `SsrAuth.WithSSRAuth` | utils/withSSRAuth.ts:9-42 | missing or empty token: redirect to "/" (not permanent), handler not called; handler returns: its result, cookies untouched; `AuthTokenError`: both cookies destroyed and every other cookie kept whole, redirect; other error: `undefined`, cookies untouched; handler called at most once |
| `SsrAuth.RedirectsExactly` | utils/withSSRAuth.ts:15-38 | a redirect happens iff the token is missing or the handler threw `AuthTokenError`, and it is always the non-permanent redirect to "/" |
| `SsrAuth.RefreshTokenIrrelevant` | utils/withSSRAuth.ts:15 | changing or removing the refresh-token cookie changes neither the resolution nor the handler calls |
| `SsrAuth.AuthTokenErrorThenShortCircuit` | utils/withSSRAuth.ts:26-38 | after an `AuthTokenError` cleanup, the next guarded request is redirected without calling its handler |

## Left out

- The HTTP transport: axios, the base URL, the success handler that returns the response unchanged (services/api.ts:21-23), and the actual replay `api(originalConfig)`. A replay is recorded as a `Reissued` outcome that carries the rewritten request. It is not issued as a new request.
- A failure without a response, such as a network error, crashes the interceptor at services/api.ts:25. Every `AxiosError` in the model carries a status.
- The `/refresh` call re-entering the same interceptor (services/api.ts:35). A renewal settles as one atomic event, so a 401 answer to `/refresh` whose code is not "token.expired", which would call `signOut()` before the queue is rejected, is not captured.
- Promises and timing. Each `then`/`catch`/`finally` chain is one event, and so is each awaited server call (`sessions`, `/me`). The server's answer is a parameter of that event. The password only goes to the server, so the model does not use it.
- nookies internals and cookie expiry over time. Cookies form a map from name to (value, maxAge, path), and destroying a cookie removes it.
- React rendering, context providers and effect scheduling. The value that `useContext` reads becomes a parameter of `UseCan`. Navigation becomes the `route` field and `window.location.reload` the `reloaded` flag.
- `console.log`, and the unhandled rejection when a `signOut` called from the `/me` `catch` throws.
- BroadcastChannel delivery between tabs. Only what a tab posts, and the messages it handles, are modelled.
- services/apiClient.ts is not part of this model. The session context's `api` is assumed to share its default `Authorization` header with the client of services/api.ts, and that header lives in `BrowserTab`.
- services/errors/AuthTokenError.ts is not part of this model. `AuthTokenError` is an opaque error tag.
