# Healthplate session lifecycle, modelled in Dafny

Healthplate is a mobile diet-tracking app. Its one piece of stateful logic is
the client-side session: an authentication provider (`AuthProvider` in
`Healthplate/src/context/AuthContext.tsx`) that restores a persisted session
at start-up, signs users in and out, and guards routes, together with the
splash screen (`Healthplate/app/index.tsx`) that makes the first routing
decision once the restore has finished.

This project models that session lifecycle:

- `wrappers.dfy`: `Option` (JavaScript `null`) and `Result` (a thrown error).
- `storage.dfy` (module `Storage`): the persistent key-value store (AsyncStorage)
  as a class over a `map<string, string>`. The two session keys are `userToken`
  and `userData`. Whether each storage call resolves or rejects is a parameter.
- `navigation.dfy` (module `Navigation`): the router as a class whose
  `replace` calls are appended to a `history` sequence. It also holds the two
  route groups `(auth)` and `(tabs)` and the two redirect targets `/(tabs)` and
  `/(auth)/login`.
- `session.dfy` (module `Session`): the specification as values. A `World`
  holds the provider's three fields (`userToken`, `userData`, `isLoading`),
  the store and the router history. `LoadAuth`, `Login` and `Logout` map the
  world before to the world after. `Run` replays a sequence of sign-ins and
  sign-outs. The lemmas state the lifecycle properties: restore conditions,
  round trip, idempotence, the store-record invariant and navigation order.
- `route_guard.dfy` (module `RouteGuard`): the route-protection effect as the
  pure decision `DecideRedirect`.
- `splash.dfy` (module `Splash`): the splash screen's decision
  `SplashRedirect`, and how it covers the case the guard leaves open.
- `auth_context.dfy` (module `AuthContext`): the provider as a class whose
  methods change its fields, the store and the router step by step, in the
  source's order. Each method is proved equal to the `Session` function of the
  same name. The module also holds `useAuth`'s missing-provider check.

The profile serialiser and parser (`JSON.stringify` / `JSON.parse`) are
library code. They are a `Codec` parameter whose `parse` yields `None` where
`JSON.parse` throws. The round-trip lemmas assume `Invertible`: parsing undoes
serialising, and a serialised profile is never the empty string.

Truthiness follows JavaScript. A null token and an empty token are both
falsy (`Session.Truthy`), both in the restore's `token && user` test and in
the guard and the splash screen.

`login` and `logout` make their own redirect only after persistence. They
call `router.replace` after both storage awaits (AuthContext.tsx:60-62,
68-70). So a rejected storage call skips that redirect, and the operation's
promise rejects (`resolved` is false).

This is not the only redirect after a sign-in. Both sign-in screens call
`login` from inside the `(auth)` group. Setting the token re-runs the route
guard, which redirects to `/(tabs)` as soon as the provider re-renders,
whatever the writes' outcome (`RouteGuard.GuardRedirectsAfterSignIn`). A
successful sign-in from those screens therefore makes two redirects: the
guard's and `login`'s own.

The token is set (AuthContext.tsx:29) before the profile is parsed (:30), so
a parse failure leaves the token set and the profile null
(`Session.ParseFailureKeepsToken`).

The two sign-in writes are not atomic. If the token write resolves and the
profile write is rejected, a profile left by an earlier session stays in the
store. A restart then restores the new token together with that earlier
profile (`Session.StaleProfileAfterRejectedWrite`). When every storage call
resolves, the two keys stay paired (`Session.RunKeepsRecordPaired`), and a
record whose keys are not paired never restores a session
(`Session.UnpairedRecordRestoresNothing`).

## Model

| member | source | states |
|---|---|---|
| `Storage.KeyValueStore.GetItem` | Healthplate/src/context/AuthContext.tsx:26-27 | A read rejects exactly when the platform rejects it. Otherwise it yields the stored string, or null exactly when the key is absent. |
| `Storage.KeyValueStore.SetItem` | Healthplate/src/context/AuthContext.tsx:60-61 | On success the key maps to the new value and every other key is unchanged. On rejection nothing changes. |
| `Storage.KeyValueStore.RemoveItem` | Healthplate/src/context/AuthContext.tsx:68-69 | On success the key is absent and every other key is unchanged. On rejection nothing changes. |
| `Navigation.Router.Replace` | Healthplate/src/context/AuthContext.tsx:62 | Each redirect is appended to the history, in order. |
| `Session.Mounted` | Healthplate/src/context/AuthContext.tsx:16-18 | A newly mounted provider is loading, with null token and null profile. |
| `Session.LoadAuth` | Healthplate/src/context/AuthContext.tsx:24-37 | Loading always ends, and the store and navigation are untouched. The token changes only when both reads resolved and both stored values are truthy, and then it becomes the stored token. The profile changes only under those same conditions, and only to the parse of the stored profile. A parse failure keeps the token set and the profile as before. |
| `Session.Login` | Healthplate/src/context/AuthContext.tsx:57-63 | Both fields are set. The token is stored first and the serialised profile second. A rejected write stops the later steps. Other keys are unchanged. Its own redirect to `/(tabs)` is appended exactly when both writes resolved. |
| `Session.Logout` | Healthplate/src/context/AuthContext.tsx:65-71 | Both fields are null. The token key is removed first and the profile key second: a rejected first removal leaves the store as it was, and a rejected second one removes the token key only. Other keys are unchanged. Its own redirect to `/(auth)/login` is appended exactly when both removals resolved. |
| `Session.RejectedReadRestoresNothing` | Healthplate/src/context/AuthContext.tsx:25-36 | A rejected read is caught. Loading still ends, and the fields are as before. |
| `Session.MissingKeyRestoresNothing` | Healthplate/src/context/AuthContext.tsx:26-31 | If either stored value is null or empty, a fresh provider ends with null token, null profile and loading over. |
| `Session.ParseFailureKeepsToken` | Healthplate/src/context/AuthContext.tsx:28-35 | If the stored profile fails to parse, the restore ends with the stored token set, the profile null and loading over. |
| `Session.UnpairedRecordRestoresNothing` | Healthplate/src/context/AuthContext.tsx:26-28 | A store that holds only one of the two session keys restores no session. |
| `Session.LoginThenRestart` | Healthplate/src/context/AuthContext.tsx:26-61 | When both sign-in writes resolve and the parser undoes the serialiser, signing in with a non-empty token and then restoring on a fresh provider yields that token and that profile. |
| `Session.LogoutIdempotent` | Healthplate/src/context/AuthContext.tsx:65-71 | When every storage call resolves, signing out twice leaves the same fields and store as signing out once. The router is sent to sign-in once more. |
| `Session.LogoutThenRestart` | Healthplate/src/context/AuthContext.tsx:65-69 | When both removals resolve, a restart after signing out restores no session. |
| `Session.StaleProfileAfterRejectedWrite` | Healthplate/src/context/AuthContext.tsx:60-61 | Suppose the token write resolves and the profile write is rejected. A restart then restores the new token with the profile an earlier session left in the store. |
| `Session.RunKeepsRecordPaired` | Healthplate/src/context/AuthContext.tsx:57-71 | When every storage call resolves, any sequence of sign-ins and sign-outs from a store whose two keys are paired keeps them present together or absent together. After a non-empty sequence both are present exactly when the last event was a sign-in. |
| `Session.RunKeepsOtherKeys` | Healthplate/src/context/AuthContext.tsx:57-71 | Any sequence of sign-ins and sign-outs leaves every other store key as it was. |
| `Session.RunNavigatesOncePerEvent` | Healthplate/src/context/AuthContext.tsx:62-70 | When every storage call resolves, each sign-in or sign-out makes exactly one redirect of its own (`login`'s or `logout`'s `router.replace`; the guard's redirect is not counted here). It goes to its own zone's target, in event order. Earlier history is kept. |
| `Session.RestartRestoresLastEvent` | Healthplate/src/context/AuthContext.tsx:24-71 | When every storage call resolves and the parser undoes the serialiser, after any non-empty sequence of sign-ins and sign-outs a restart restores the last sign-in's token and profile. It restores nothing when the last event was a sign-out or a sign-in with an empty token. |
| `RouteGuard.DecideRedirect` | Healthplate/src/context/AuthContext.tsx:42-55 | No redirect while loading. Once loaded, it redirects exactly when the token is truthy and the first segment is `(auth)`, and the target is `/(tabs)`. |
| `RouteGuard.GuardLeavesSignedOutUserInPlace` | Healthplate/src/context/AuthContext.tsx:48-50 | A signed-out user outside the sign-in group is not redirected by the guard. |
| `RouteGuard.GuardRedirectsAfterSignIn` | Healthplate/src/context/AuthContext.tsx:51-58 | Once loaded, signing in with a non-empty token from inside the sign-in group makes the guard redirect to `/(tabs)`, whatever the storage writes do. When the first write rejects, `login`'s own redirect is skipped. |
| `RouteGuard.GuardRedirectSettles` | Healthplate/src/context/AuthContext.tsx:51-54 | The guard's redirect lands in the tabs zone, where the guard issues no further redirect. |
| `Splash.SplashRedirect` | Healthplate/app/index.tsx:10-22 | No redirect while loading. Once loaded, it makes exactly one redirect: `/(tabs)` for a truthy token, `/(auth)/login` for a null or empty one. |
| `Splash.SplashTargetMatchesSession` | Healthplate/app/index.tsx:13-18 | Once loaded, the splash target lies in the zone that matches the session. |
| `Splash.GuardAndSplashCoverEveryState` | Healthplate/app/index.tsx:16-17 | Once loaded, the guard's redirect agrees with the splash. A signed-out user outside the sign-in group gets no guard redirect, and the splash sends them to sign in. |
| `Splash.SplashThenGuardSettles` | Healthplate/app/index.tsx:14-17 | At the splash's target, the guard issues no further redirect. |
| `Splash.EmptyStoreRoutesToLogin` | Healthplate/app/index.tsx:11-18 | With an empty store, the restore finds no session and the splash sends the user to sign in. |
| `AuthContext.UseAuth` | Healthplate/src/context/AuthContext.tsx:80-84 | Inside a provider it yields that provider's context. Outside one it fails with the missing-provider message. |
| `AuthContext.AuthProvider.constructor` | Healthplate/src/context/AuthContext.tsx:15-20 | Mounting starts loading, with null token and null profile. |
| `AuthContext.AuthProvider.LoadAuth` | Healthplate/src/context/AuthContext.tsx:24-37 | The step-by-step restore equals `Session.LoadAuth`. It leaves the store and the router untouched. |
| `AuthContext.AuthProvider.Login` | Healthplate/src/context/AuthContext.tsx:57-63 | The step-by-step sign-in equals `Session.Login`. Its promise resolves exactly when both writes resolved. |
| `AuthContext.AuthProvider.Logout` | Healthplate/src/context/AuthContext.tsx:65-71 | The step-by-step sign-out equals `Session.Logout`. Its promise resolves exactly when both removals resolved. |
| `AuthContext.AuthProvider.GuardEffect` | Healthplate/src/context/AuthContext.tsx:42-55 | One run of the guard effect appends exactly the redirect that `DecideRedirect` chooses, or nothing. |
| `AuthContext.RestartAfterLogin` | Healthplate/src/context/AuthContext.tsx:15-30 | Sign in on one provider, then mount a fresh provider over the same store. The fresh provider finishes loading with the same token and profile. |

## Left out

- The splash screen's three-second timer and its cancellation (`setTimeout` / `clearTimeout`). The model takes the decision the timer eventually carries out.
- React's effect scheduling and asynchronous interleaving, such as a sign-out that starts while a sign-in's writes are still pending. Each operation runs to completion on its own.
- `console.error` in the restore's error handler. It only logs.
- `JSON.stringify` throwing, for example on a cyclic profile. The codec's serialiser is total.
- The route segments the router reports after a redirect (`Navigation.Landing`) are given for the two redirect targets only. The router library that computes them is not part of this model.
- The guard's `inTabsGroup` test (AuthContext.tsx:46) is computed but never used by the source, so it has no counterpart.
- The screens, the HTTP client, and the backend (profile metrics, password hashing, tokens, database) are not part of this model.
