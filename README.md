# Route guard of the mobile client's root layout

The mobile client of the book-recommendation feed wraps every screen in a
root layout. An effect in that layout decides, each time the signed-in
user, the bearer token or the route segments change, whether to replace the
current route: a visitor who is not signed in and is outside the auth area
is sent to `/(auth)`; a signed-in user who is still in the auth area is sent
to `/(tabs)`; otherwise nothing happens.

The project models that decision in two layers:

- `JsValues` (js_values.dfy): the JavaScript semantics the effect relies on —
  truthiness, `&&` returning one of its operands, strict equality, and an
  array index past the end reading as `undefined`.
- `RootLayout` (root_layout.dfy): the effect body as written (`InAuthScreen`,
  `IsSignedIn`, `Guard`), the same decision on the store's typed state
  (`Decide`, with the user and token as options), definitions of "signed
  in" and "in the auth area" that do not use JavaScript semantics
  (`SignedIn`, `InAuthArea`) and that the contracts compare against, and
  `Settle`, the guard re-run after its own redirect lands.

The guard has no "session status still unknown, so wait" rule. The store
exposes an `isCheckingAuth` flag (read by the sign-in screen,
mobile/app/(auth)/index.jsx:24), but the guard at mobile/app/_layout.jsx:29-34
never reads it: it runs on every change, including before the store's
initial `checkAuth` has finished. The model has no such rule either.

## Model

| member | source | states |
|---|---|---|
| JsValues.And | mobile/app/_layout.jsx:31 | `user && token` yields the first operand when that one is falsy and the second otherwise; it is truthy exactly when both operands are truthy |
| JsValues.Truthy | mobile/app/_layout.jsx:31-33 | JavaScript ToBoolean, used by `!isSignedIn` and the two `if`s: the falsy values are exactly `undefined`, `null`, `false` and the empty string |
| JsValues.StrictEquals | mobile/app/_layout.jsx:30 | `===`: two strings are equal exactly when their contents are, a string never equals a non-string (no coercion), and `undefined` equals only `undefined` |
| JsValues.ElementAt | mobile/app/_layout.jsx:30 | `segments[i]` is `undefined` exactly when the index is past the end, and otherwise the string at that index |
| RootLayout.Href | mobile/app/_layout.jsx:32-33 | the paths passed to `router.replace`: `/(auth)` for the redirect to auth and `/(tabs)` for the redirect to tabs |
| RootLayout.IsSignedIn | mobile/app/_layout.jsx:31 | `isSignedIn` is truthy exactly when both the user and the token are truthy |
| RootLayout.UserValue | mobile/app/_layout.jsx:16 | the store's user is truthy exactly when it is present; a null or undefined user counts as absent |
| RootLayout.TokenValue | mobile/app/_layout.jsx:16 | the store's token is truthy exactly when it is present and not the empty string |
| RootLayout.InAuthScreen | mobile/app/_layout.jsx:30 | the screen is in the auth area exactly when there is a first segment and it is `(auth)`; an empty segment list is outside |
| RootLayout.TargetGroup | mobile/app/_layout.jsx:32-33 | the redirect path `/(auth)` names the `(auth)` group and `/(tabs)` names the `(tabs)` group (where the router then lands is the assumption under "Left out") |
| RootLayout.Guard | mobile/app/_layout.jsx:30-33 | the guard never redirects to the area already active: a redirect to auth happens only outside the auth area, a redirect to tabs only inside it, and the target group never equals the current first segment |
| RootLayout.Decide | mobile/app/_layout.jsx:29-33 | on the store's state: redirect to auth if and only if signed out outside the auth area; redirect to tabs if and only if signed in inside it (so the two branches never both apply); no redirect if and only if signed in outside the auth area or signed out inside it; signed in means a user and a non-empty token |
| RootLayout.Idempotent | mobile/app/_layout.jsx:30-34 | with user and token unchanged, once the route starts with the redirect's target group, whatever follows it, the guard asks for no further redirect |
| RootLayout.Settle | mobile/app/_layout.jsx:29-34 | re-running the guard whenever its own redirect changes the segments replaces the route at most once, exactly once when the first evaluation redirects (with that redirect's path), and ends on a route where the guard is quiet |

## Left out

- Font loading and hiding the splash screen (mobile/app/_layout.jsx:10, 17-23): platform calls with no logic of their own.
- The `checkAuth()` call on mount (mobile/app/_layout.jsx:25-27): the session store is not part of this model, so its effects on user and token are not modelled; user and token are inputs.
- `router.replace` and React's effect scheduling: only the decision is modelled. `Settle` assumes a replace to `/(auth)` or `/(tabs)` lands on the single segment `(auth)` or `(tabs)`; `Idempotent` covers any further segments.
- Changes of user or token between evaluations: `Settle` keeps them fixed; each change starts a fresh evaluation, which the lemmas about `Guard` and `Decide` cover.
- JsValues.Value: JavaScript numbers (and NaN) are not represented; neither the user nor the token is ever a number.
- Rendering of the provider, stack and status bar (mobile/app/_layout.jsx:39-49) and mobile/components/ProfileHeader.jsx: view markup.
- The session store, the paginated feed and the request helper: their source is not part of this model.
