# Client state layer of the Hickory DNS web console, in Dafny

This project models the browser client's state layer (`web/ui/src/store/index.js`) and the two views
that hold logic over it: the login page and the page layout.

- **Auth store** (`useAuthStore`). The session record holds `user`, `token`, `isAuthenticated`,
  `isLoading` and `error`. `login` is split at its `await`: `LoginStart` marks loading and calls the
  server, and `LoginSettle` applies the reply. `Login` runs both with nothing in between. The
  server's answer is a `LoginReply` parameter. Calls of the token binder `setAuthToken` go into a
  ghost trace of effects, beside each committed state and the remote call. This lets the order of
  those effects be stated. The class invariant `Valid()` says every authenticated commit comes after
  its token was bound. `partialize` and rehydration are pure functions.
- **Zones store** (`useZonesStore`). The store is an ordered list of zone records plus a selection,
  a loading flag and an error value. The map and filter by `id` that `updateZone` and `removeZone`
  use live in module `Records`. The notification queue uses the same filter.
- **UI store** (`useUIStore`). It holds the sidebar flag, the theme name and the notification queue.
  `Date.now()` is a parameter.
- **Login page**. It models the ordered credential checks, the message shown after a failure, the
  role-based redirect and `handleSubmit` over the auth store.
- **Layout**. It models the nav-entry highlight rule, the role-based nav list, the avatar and label
  fallbacks, the theme toggle and `handleLogout`.

JavaScript values are `Js.Value`: primitives, plus `Ref` for any object, compared by identity.
Records are `map<string, Value>`. Property reads give `undefined` when the key is absent. The object
spread `{...a, ...b}` is the map union `a + b`, in which `b` wins.

### Where the code falls short of what one might expect (the model follows the code)

- A session would be expected to be authenticated exactly when both a token and a user are
  present. The code does not keep this. `setUser(null)` leaves an authenticated session with no user
  (`Auth.SetUserBreaksPairing`). Rehydration restores the token and the user but not the flag
  (`Auth.RehydrateBreaksPairing`). A success body without `token` authenticates with an undefined
  token (`Auth.MissingTokenStillAuthenticates`).
- One would expect a guard against a stale login reply. The code has none. A logout during the
  `await`, followed by a late success, authenticates again (`Auth.StaleLoginReauthenticates`).
- One would expect zone ids to stay unique. `addZone` appends without checking
  (`Zones.AddDuplicates`). `updateZone` re-keys a zone when the patch has an `id`
  (`Records.MergeRekeys`).
- One would expect notification ids to be unique. An id is the clock reading unless the payload
  carries its own, so two notifications in the same millisecond share one (`UI.SameClockSameId`).
- The page's fallback text "Invalid username or password" never appears after a store login,
  because the store always throws a non-empty message (`LoginPage.StoreMessageShownVerbatim`).

## Model

| member | source | states |
|---|---|---|
| `Js.Spread` | web/ui/src/store/index.js:64 | the shallow spread holds the keys of both objects, with the right-hand value on shared keys |
| `Js.Rest` | web/ui/src/store/index.js:18 | the rest of a destructured object lacks the named key and keeps every other property unchanged |
| `Records.MergeWhereId` | web/ui/src/store/index.js:63-65 | same length; records whose id matches become their spread with the patch; all others are unchanged |
| `Records.MergeWhereIdAt` | web/ui/src/store/index.js:64 | a matched record gains every patch key with the patch's value and keeps its other keys; an unmatched one is untouched |
| `Records.MergeWhereIdAppend` | web/ui/src/store/index.js:63-65 | merging distributes over concatenation, so order is preserved |
| `Records.MergeAbsentId` | web/ui/src/store/index.js:63-65 | updating an id no record carries leaves the list unchanged |
| `Records.MergeKeepsUnique` | web/ui/src/store/index.js:63-65 | a patch without `id` keeps ids unique |
| `Records.MergeRekeys` | web/ui/src/store/index.js:64 | a patch with `id` gives every matched record the patch's id |
| `Records.WithoutId` | web/ui/src/store/index.js:67-69 | the result holds exactly the records whose id differs, each with its original multiplicity |
| `Records.WithoutIdAppend` | web/ui/src/store/index.js:67-69 | filtering distributes over concatenation, so survivors keep their order |
| `Records.WithoutAbsentId` | web/ui/src/store/index.js:67-69 | removing an id no record carries leaves the list unchanged |
| `Records.WithoutIdIdempotent` | web/ui/src/store/index.js:67-69 | no survivor carries the id, and a second removal changes nothing |
| `Records.WithoutIdKeepsUnique` | web/ui/src/store/index.js:67-69 | removal keeps ids unique |
| `Auth.Begin` | web/ui/src/store/index.js:15 | the first `set` of `login`: loading, no error; user, token and the flag are kept |
| `Auth.Accept` | web/ui/src/store/index.js:18-20 | the success `set`: authenticated, not loading, error kept, token from the body, user is the body's other properties with their values |
| `Auth.Reject` | web/ui/src/store/index.js:23-24 | the failure `set`: error is the normalised message, not loading; user, token and the flag are kept |
| `Auth.Settle` | web/ui/src/store/index.js:17-26 | after the call settles loading is over; the session is authenticated iff the reply succeeded or it already was; a failure sets a non-empty error and keeps user and token |
| `Auth.Outcome` | web/ui/src/store/index.js:21-25 | the promise resolves iff the reply succeeded, with the body minus `token`; otherwise it throws a non-empty message |
| `Auth.SignOut` | web/ui/src/store/index.js:31 | the `set` of `logout`: no user, null token, not authenticated; loading and error kept |
| `Auth.HasRole` | web/ui/src/store/index.js:38 | `user?.role === role`: true iff a user exists whose `role` property is that string |
| `Auth.Partialize` | web/ui/src/store/index.js:44 | the persisted slice holds exactly the token and the user |
| `Auth.Rehydrate` | web/ui/src/store/index.js:8-12 | the rehydrated state is the initial one with the saved token and user, so never authenticated, loading or in error |
| `Auth.AuthStore.Commit` | web/ui/src/store/index.js:15 | `set`: the state becomes the given record and one commit is recorded; an authenticated commit needs its token already bound |
| `Auth.AuthStore.Bind` | web/ui/src/store/index.js:19 | `setAuthToken`: the state is untouched and the token becomes the bound one |
| `Auth.FailureMessage` | web/ui/src/store/index.js:23 | the message is the server's when it is non-empty, else "Login failed"; it is never empty |
| `Auth.AuthStore.constructor` | web/ui/src/store/index.js:8-12 | the store starts from the rehydrated record (initial values when nothing was saved), with no effects yet |
| `Auth.AuthStore.LoginStart` | web/ui/src/store/index.js:14-17 | loading is set and the error cleared in one commit, and only then is the server called |
| `Auth.AuthStore.LoginSettle` | web/ui/src/store/index.js:17-26 | success binds the token, then commits user, token, authenticated and not-loading, and returns the stored user without `token`; failure sets only error and loading and throws that message |
| `Auth.AuthStore.Login` | web/ui/src/store/index.js:14-27 | the whole call: start effects, then settle effects; final state and promise outcome as a function of the old state and the reply |
| `Auth.AuthStore.Logout` | web/ui/src/store/index.js:29-32 | the binder is cleared first, then user, token and the flag are reset; loading and error are kept |
| `Auth.AuthStore.ClearError` | web/ui/src/store/index.js:34 | only `error` changes |
| `Auth.AuthStore.SetUser` | web/ui/src/store/index.js:36 | only `user` changes |
| `Auth.AuthStore.IsAdmin` | web/ui/src/store/index.js:38 | true only with a user whose role is "admin"; false without a user |
| `Auth.AuthStore.IsAgent` | web/ui/src/store/index.js:40 | true only with a user whose role is "agent"; false without a user |
| `Auth.LoginSucceeds` | web/ui/src/store/index.js:17-21 | after success: authenticated, not loading, no error, token from the body, user is the body minus `token`, resolved value is that user |
| `Auth.LoginFails` | web/ui/src/store/index.js:22-26 | after failure: error and thrown message are the normalised message; user, token and flag are unchanged |
| `Auth.LogoutIdempotent` | web/ui/src/store/index.js:29-32 | logging out twice equals logging out once; loading and error survive |
| `Auth.StaleLoginReauthenticates` | web/ui/src/store/index.js:14-32 | a success that settles after a logout still authenticates |
| `Auth.RolesExclusive` | web/ui/src/store/index.js:38-40 | the two role predicates never both hold; both are false without a user |
| `Auth.PersistRoundTrip` | web/ui/src/store/index.js:8-45 | rehydrating the persisted slice restores token and user, with the flags and error at their initial values; persisting again gives the same slice |
| `Auth.SetUserBreaksPairing` | web/ui/src/store/index.js:36 | `setUser(null)` on a paired session leaves it authenticated without a user |
| `Auth.RehydrateBreaksPairing` | web/ui/src/store/index.js:44 | a rehydrated token and user come back unauthenticated |
| `Auth.MissingTokenStillAuthenticates` | web/ui/src/store/index.js:18-20 | a success body without `token` authenticates with an undefined token |
| `Zones.ZonesStore.constructor` | web/ui/src/store/index.js:50-54 | the store starts with no zones, no selection, not loading, a null error |
| `Zones.ZonesStore.SetZones` | web/ui/src/store/index.js:56 | the list becomes the given one; nothing else changes |
| `Zones.ZonesStore.SetSelectedZone` | web/ui/src/store/index.js:57 | only the selection changes |
| `Zones.ZonesStore.AddZone` | web/ui/src/store/index.js:59-61 | the zone is appended at the end; nothing else changes |
| `Zones.ZonesStore.UpdateZone` | web/ui/src/store/index.js:63-65 | the list becomes its id-matched merge; nothing else changes |
| `Zones.ZonesStore.RemoveZone` | web/ui/src/store/index.js:67-69 | the list becomes its filter by id; nothing else changes |
| `Zones.ZonesStore.SetLoading` | web/ui/src/store/index.js:71 | only the loading flag changes |
| `Zones.ZonesStore.SetError` | web/ui/src/store/index.js:72 | only the error value changes |
| `Zones.AddDuplicates` | web/ui/src/store/index.js:59-61 | adding a zone already present grows the list by one and breaks id uniqueness |
| `Zones.AddUpdateRemove` | web/ui/src/store/index.js:59-69 | add, then update by that id with a patch that keeps the id, then remove by that id, restores the list |
| `Zones.AddUpdateRemoveFromEmpty` | web/ui/src/store/index.js:59-69 | from empty: add zone 1, rename it, remove zone 1 gives the empty list |
| `UI.Stamp` | web/ui/src/store/index.js:85-88 | the entry has the payload's properties plus `id`; its id is the payload's when present, else the clock reading |
| `UI.UIStore.constructor` | web/ui/src/store/index.js:76-79 | the store starts with the sidebar open, the light theme and no notifications |
| `UI.UIStore.ToggleSidebar` | web/ui/src/store/index.js:81 | the sidebar flag is negated; nothing else changes |
| `UI.UIStore.SetTheme` | web/ui/src/store/index.js:82 | only the theme changes |
| `UI.UIStore.AddNotification` | web/ui/src/store/index.js:84-89 | exactly one stamped entry is appended |
| `UI.UIStore.RemoveNotification` | web/ui/src/store/index.js:91-93 | the queue becomes its filter by id |
| `UI.UIStore.ClearNotifications` | web/ui/src/store/index.js:95 | the queue is empty |
| `UI.ToggleSidebarTwice` | web/ui/src/store/index.js:81 | toggling twice leaves every field as it was |
| `UI.StampKeepsUnique` | web/ui/src/store/index.js:84-89 | a payload without `id` keeps the queue's ids unique exactly when the clock value is not already an id |
| `UI.SameClockSameId` | web/ui/src/store/index.js:86 | two notifications stamped with the same clock value share an id |
| `UI.TwoNotifications` | web/ui/src/store/index.js:84-93 | two adds at distinct clock values give distinct ids in insertion order; removing the first leaves only the second |
| `LoginPage.Trim` | web/ui/src/pages/Login.jsx:25 | the trimmed string is a slice of the input; it is empty exactly when every character is white space, otherwise it starts and ends with a non-space |
| `LoginPage.Validate` | web/ui/src/pages/Login.jsx:25-36 | blank username, then empty password, then an untrimmed username under 3 characters, each with its message and the first failure winning; `None` exactly when all pass |
| `LoginPage.Redirect` | web/ui/src/pages/Login.jsx:42 | "/admin" exactly for the admin role, "/user" otherwise, also without a user |
| `LoginPage.EntryRedirect` | web/ui/src/pages/Login.jsx:17-19 | an already authenticated session is redirected by role; otherwise the form is shown |
| `LoginPage.DisplayedError` | web/ui/src/pages/Login.jsx:44 | a non-empty thrown message is shown as is, an empty one as "Invalid username or password"; the shown text is never empty |
| `LoginPage.LoginForm.constructor` | web/ui/src/pages/Login.jsx:8-12 | the form starts empty, not loading, with no error |
| `LoginPage.LoginForm.HandleSubmit` | web/ui/src/pages/Login.jsx:21-48 | a failing check shows its message before loading starts and leaves the store untouched; otherwise the store logs in with the typed credentials, success navigates by role, failure shows the message, and loading ends |
| `LoginPage.StoreMessageShownVerbatim` | web/ui/src/pages/Login.jsx:43-44 | after a store login, the page shows exactly the store's message |
| `LoginPage.PaddedShortNamePasses` | web/ui/src/pages/Login.jsx:25-36 | the length rule counts padding, so "  a" and "ab " pass while "ab" does not |
| `Layout.IsActive` | web/ui/src/components/Layout.jsx:26-28 | an entry is active on its own path; an active path starts with the entry's target; an exact entry is active only on its own path |
| `Layout.ActiveCharacterised` | web/ui/src/components/Layout.jsx:26-28 | exact entries are active only on their path; others also on their path followed by `/` and anything |
| `Layout.PrefixIsNotEnough` | web/ui/src/components/Layout.jsx:28 | "/admin/zonesX" does not highlight Zones, "/admin/zones/5" does, and the exact dashboard is not active below itself |
| `Layout.BothActiveOverlap` | web/ui/src/components/Layout.jsx:26-28 | two entries active on one path are equal or nested below a non-exact one |
| `Layout.AtMostOneActive` | web/ui/src/components/Layout.jsx:26-28 | in a list with no overlapping entries, at most one entry is active on any path |
| `Layout.AdminNavSeparated` | web/ui/src/components/Layout.jsx:65-76 | no two administrator entries overlap |
| `Layout.UserNavSeparated` | web/ui/src/components/Layout.jsx:78-82 | no two user entries overlap |
| `Layout.NavListsHighlightOne` | web/ui/src/components/Layout.jsx:139-148 | on any path, at most one entry of the shown list is highlighted |
| `Layout.NavItems` | web/ui/src/components/Layout.jsx:63-84 | the ten administrator entries exactly for the admin role, else the three user entries, also without a user |
| `Layout.VisibleNav` | web/ui/src/components/Layout.jsx:99-101 | without a session no navigation is shown; with one, the role's list |
| `Layout.AvatarInitial` | web/ui/src/components/Layout.jsx:160 | one letter: "U" without a user or username or with an empty one, else the upper-cased first letter; rendering fails for a non-string username |
| `Layout.ShownOr` | web/ui/src/components/Layout.jsx:164-165 | the name and role labels: the user's value when truthy, else the fallback ("User", "user"); never falsy |
| `Layout.NextTheme` | web/ui/src/components/Layout.jsx:95-97 | the toggle always changes the theme, "dark" to "light" and anything else to "dark" |
| `Layout.NextThemeInvolutive` | web/ui/src/components/Layout.jsx:96 | toggling twice restores a light or dark theme |
| `Layout.HandleLogout` | web/ui/src/components/Layout.jsx:58-61 | the store logs out (the binder cleared, then the signed-out state committed) and the target is "/login" |

## Left out

- Rendering: all JSX markup, `clsx` class strings, icons, and the menu toggles kept in `useState`. `navigate` and `<Navigate>` are modelled only as a returned target path.
- The theme's DOM side effect (Layout.jsx:87-93). It is browser I/O.
- `web/ui/src/main.jsx`. It is start-up I/O: a `localStorage` read and the root render. It reads the key `token`, which the store never writes; the store persists under `auth-storage`. So the model's binder starts with no token.
- The internals of `authApi.login` and `setAuthToken` (`../api/client`) are not part of this model. The first is the `LoginReply` parameter. The second is the `Bound` entry of the ghost effect trace.
- The persistence middleware's storage, JSON encoding (which drops `undefined`), version field and subscriber notification. Only `partialize` and the merge of the saved slice over the initial state are modelled.
- Subscriber notification in general. Each `set` is one `Committed` effect.
- Auth.LoginSettle: a reply body that is not an object, and a rejection whose `error` is not a string, are not modelled. The code catches a null body's destructuring error and reports "Login failed". It would store a non-string `error` as is.
- Async interleaving beyond the single `await` of `login`. Any order of method calls is possible, including overlapping logins, and nothing guards against them, matching the code.
- LoginPage.LoginForm.HandleSubmit: the `isLoading` value while the call is pending is not traced. The contract states only the value before and after.
- LoginPage.Validate: the model counts characters as Unicode scalar values. `String.length` counts UTF-16 code units, so a username with characters outside the Basic Multilingual Plane is measured differently.
- Layout.AvatarInitial: `toUpperCase` is modelled on ASCII letters only. Full Unicode case mapping (such as "ß" becoming "SS") is left out. `charAt(0)` takes the first UTF-16 code unit, so a name that starts outside the Basic Multilingual Plane shows a lone surrogate in the code but the whole character in the model.
- Numbers are integers. `NaN` (for which `===` fails) and fractions are not modelled. Object key order is not modelled.
- The store actions' argument types are narrowed. `setSelectedZone` takes an object or null, `setTheme` a string, and `setLoading` a boolean. `updateZone`'s `data` and `addNotification`'s payload are objects, and `setUser` takes an object or null.
- Zones.ZonesStore.SetZones, Zones.ZonesStore.AddZone: the zone list holds objects only. The code accepts `null` or a primitive as a zone; a later `updateZone` or `removeZone` then throws a TypeError reading `z.id` (index.js:64, 68). The model cannot represent that list, nor the throw.
