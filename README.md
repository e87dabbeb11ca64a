# Session store and navigation guard of a Vue + Supabase client

This project models the client-side authentication core of a small Vue
application that signs users in against Supabase:

- the Pinia auth store (`src/stores/auth.ts`): the current `user`, the
  current `session` and a `loading` flag, and the operations `setAuth`,
  `login`, `loginWithGitHub`, `register` (with `createProfile`), `logout`,
  `forgotPassword`, `resetPassword`, `updateProfile`, `uploadAvatar`,
  `getProfile`, `initializeAuth`, plus the derived `isAuthenticated`;
- the route table and the `beforeEach` guard (`src/router/index.ts`);
- the entry point (`src/main.ts`): the `onAuthStateChange` handler and the
  startup call to `initializeAuth`.

Every remote call (Supabase auth, the `profiles` table, the `avatars`
bucket) is replaced by an outcome the caller supplies: `Ok(data)` or
`Err(error)`. A thrown error becomes an `Err` result. The remote side the
store writes to is the `Backend` class. It holds the `profiles` table as a
map from id to row and the set of object keys in the `avatars` bucket. It
also keeps a log of the remote calls issued, with their arguments. The store
is a class with mutable `user`, `session` and `loading` fields. Its invariant
`Consistent()` says a user is held exactly when a session is.

Files:

- `auth_types.dfy` (module `AuthTypes`): `Option`, `Result`, `Error`, `User`, `Session`.
- `avatar_key.dfy` (module `AvatarKey`): `name.split(".").pop()` and the object key `${id}.${ext}`.
- `router.dfy` (module `Router`): the route table, route lookup, and the guard's decision.
- `auth_store.dfy` (module `AuthStore`): profile rows, the `Backend` and `Store` classes.
- `app_entry.dfy` (module `AppEntry`): the session-change handler and startup.
- `scenarios.dfy` (module `Scenarios`): client methods that play through usage scenarios using only the contracts.

Modelling choices, where the code decides:

- `updateProfile` issues `update(...).eq("id", id)`. On a missing row this
  matches nothing and is not an error, so `UpdateRow` leaves the table
  unchanged in that case.
- `getProfile` uses `.single()`, which fails when no row matches. A missing row
  therefore gives `None`, like any other failure.
- The guard reads `to.meta.requiresAuth` with JavaScript truthiness. An
  absent flag counts as false. This covers the `/` record, which has no
  `meta`, and any path no record matches. The guard decides `/` exactly as it
  decides `/login`, so the result is the same whether the guard sees the
  entry or its redirect target.
- `initializeAuth` ignores the `error` that `getSession` returns. It acts only
  when a session is present. An error result and an absent session therefore
  both leave the state alone.
- Events are compared as strings (`"SIGNED_IN"`, `"SIGNED_OUT"`,
  `"TOKEN_REFRESHED"`), as the handler does.
- `login` stores the returned user and the returned session as two separate
  values, as the code does. The model does not assume that the user is the
  session's own user. The invariant it keeps is therefore that a user is held
  exactly when a session is.

Assumptions about the remote side, which no source file in this model shows:

- The `profiles` table's primary key is `id`. So `createProfile` and
  `register` fail with `DuplicateKey` when the id already has a row, even if
  the outcome the caller supplies is `Ok`. Every other failure is the
  caller-supplied outcome.

Behaviours of the code worth noting:

- The OAuth sign-in always names the `github` provider, and it returns to
  origin + `/dashboard`.
- `updateProfile` and `uploadAvatar` with no user throw before the line that
  sets `loading`, so on that path the flag keeps the value it had.
- A profile update for an id with no row succeeds and changes nothing.

## Model

| member | source | states |
|---|---|---|
| AuthStore.Store.constructor | src/stores/auth.ts:7-9 | the store starts with no user, no session, `loading` false, and satisfies the invariant |
| AuthStore.Store.IsAuthenticated | src/stores/auth.ts:11 | true exactly when a user is held; under the invariant, exactly when a session is held |
| AuthStore.Store.SetAuth | src/stores/auth.ts:13-16 | user and session become exactly the arguments and `loading` is untouched, so clearing twice equals clearing once; the invariant holds afterwards iff both arguments are null or both are non-null |
| AuthStore.Store.Login | src/stores/auth.ts:18-36 | one sign-in request carrying the e-mail and password; on success user and session become the returned pair and the data is returned; on error both are unchanged and the same error is returned; `loading` ends false; the invariant is kept |
| AuthStore.Store.LoginWithGitHub | src/stores/auth.ts:38-57 | one OAuth request for `github` returning to origin + `/dashboard`; the provider's result or error is passed back; user and session are untouched; `loading` ends false |
| AuthStore.NewProfile | src/stores/auth.ts:141-148 | the inserted row has the given id and full name, no phone or avatar, `created_at` from the first clock read and `updated_at` from the second, which may differ |
| AuthStore.Store.CreateProfile | src/stores/auth.ts:139-155 | one insert request carrying the row built from the two clock reads; the row is stored under the user's id only when the insert succeeds, and an id already present is a duplicate-key failure (assuming `id` is the primary key); errors are passed back; rows stay keyed by their ids |
| AuthStore.Store.Register | src/stores/auth.ts:59-90 | a sign-up request; when the service returns a user, an insert of that user's row with the given full name follows; a failed insert is reported, while the account stays and no rollback happens; user and session never change; `loading` ends false |
| AuthStore.Store.Logout | src/stores/auth.ts:92-105 | one sign-out request; on success user and session are both cleared; on error both are unchanged and the error is passed back; `loading` ends false |
| AuthStore.Store.ForgotPassword | src/stores/auth.ts:107-121 | one reset-e-mail request whose return address is origin + `/reset-password`; user and session are untouched; the outcome is passed back; `loading` ends false |
| AuthStore.Store.ResetPassword | src/stores/auth.ts:123-137 | one password-update request; user and session are untouched; the outcome is passed back; `loading` ends false |
| AuthStore.ApplyChanges | src/stores/auth.ts:166-171 | supplied fields overwrite the row's, absent ones keep it, `updated_at` becomes `now`, and the id and `created_at` are kept |
| AuthStore.ApplyChangesIdempotent | src/stores/auth.ts:166-171 | repeating the same update changes nothing more |
| AuthStore.ApplyChangesCompose | src/stores/auth.ts:166-171 | two updates in a row equal one carrying the later value of each field and the later timestamp |
| AuthStore.AvatarChange | src/stores/auth.ts:199 | `{ avatar_url: publicUrl }` applied to any row sets the avatar address and the timestamp and leaves every other field as it was |
| AuthStore.UpdateRow | src/stores/auth.ts:166-172 | only the row keyed by the id changes; every other row and the set of keys stay the same |
| AuthStore.Store.UpdateProfile | src/stores/auth.ts:157-181 | with no user it fails with "No user logged in" before setting `loading` and without any remote call; otherwise one update request for the user's id, the table changes as `UpdateRow` on success and not at all on error, and `loading` ends false |
| AuthStore.Store.UploadAvatar | src/stores/auth.ts:183-208 | with no user it fails before setting `loading` and touches neither the bucket nor the table; otherwise the picture is stored under `StorageKey(user.id, name)`, then the public URL is written to the user's row through `updateProfile`, and that URL is returned; an upload failure stops before the table; `loading` ends false |
| AuthStore.Store.GetProfile | src/stores/auth.ts:210-224 | one select request; the row is returned exactly when the read succeeds and a row exists for the id, and `None` on any error |
| AuthStore.Store.InitializeAuth | src/stores/auth.ts:226-237 | one session request; an existing session is adopted together with its own user; no session, or an error, leaves the state unchanged and nothing is raised |
| AvatarKey.Split | src/stores/auth.ts:188 | `split(".")` yields at least one segment, and no segment contains the separator |
| AvatarKey.JoinSplit | src/stores/auth.ts:188 | joining the segments with the separator gives back the original name |
| AvatarKey.Extension | src/stores/auth.ts:188 | the extension never contains a dot |
| AvatarKey.ExtensionIsTextAfterLastDot | src/stores/auth.ts:188 | the extension is the suffix of the name after its last dot, or the whole name when it has no dot |
| AvatarKey.ExtensionOfDotlessName | src/stores/auth.ts:188 | a name without a dot is its own extension |
| AvatarKey.ExtensionAfterLastDot | src/stores/auth.ts:188-189 | whatever precedes the last dot, the extension is the text after it |
| AvatarKey.StorageKey | src/stores/auth.ts:188-189 | the key is the user's id, a dot, and then exactly as many characters as the file's extension, and the key's own extension is the file's; together with `ExtensionIsTextAfterLastDot` this makes the key `${id}.${ext}` |
| AvatarKey.StorageKeyInjective | src/stores/auth.ts:188-189 | equal keys mean the same user and the same extension, so one user's upsert never overwrites another user's picture |
| AvatarKey.StorageKeyExample | src/stores/auth.ts:188-189 | user `U1` uploading `me.png` gives extension `png` and key `U1.png` |
| Router.FindRoute | src/router/index.ts:4-45 | the record found has the path asked for and is in the table; none is found exactly when no record has that path |
| Router.RouteTableFlags | src/router/index.ts:4-45 | `/login`, `/register`, `/forgot-password` and `/reset-password` require no authentication; `/dashboard` and `/profile` require it; `/` has no flag |
| Router.RoutePathsDistinct | src/router/index.ts:4-45 | no two records share a path |
| Router.RedirectTargetsAreRoutes | src/router/index.ts:5-13 | `/` redirects to `/login`; `/login` and `/dashboard`, the guard's redirect targets, are both records of the table |
| Router.RequiresAuthOf | src/router/index.ts:54 | a flag, when present, is the one declared by a record with that path; a path no record matches has no flag |
| Router.BeforeEach | src/router/index.ts:52-63 | the guard redirects to `/login` iff the destination requires authentication and no session exists; it redirects to `/dashboard` iff the destination does not require it (or has no flag) and a session exists; any redirect goes to one of those two paths |
| Router.Decide | src/router/index.ts:56-62 | redirect to `/login` iff authentication is required and no session exists; redirect to `/dashboard` iff it is not required and a session exists; allow iff the flag equals session presence |
| Router.GuardIgnoresSource | src/router/index.ts:52-62 | the decision is the same whatever route the navigation comes from |
| Router.GuardDependsOnlyOnFlagAndSession | src/router/index.ts:52-62 | navigations with the same destination flag and the same session presence get the same decision |
| Router.UnflaggedDestinationIsPublicOnly | src/router/index.ts:54-61 | a destination without a flag, including an unmatched path, sends a session holder to `/dashboard` and lets anyone else through |
| Router.RootDecidedAsLogin | src/router/index.ts:5-13 | `/` is decided exactly as its redirect target `/login` |
| Router.NoRedirectLoop | src/router/index.ts:56-61 | for the same session, the guard allows the target of any redirect it issues, so a second pass never redirects again |
| Router.SessionHolderLeavesResetPassword | src/router/index.ts:28-32 | a session holder opening `/reset-password` is redirected to `/dashboard` |
| Router.ProtectedPagesNeedSession | src/router/index.ts:33-44 | without a session, `/dashboard` and `/profile` redirect to `/login` |
| AppEntry.React | src/main.ts:22-30 | the handler signs out exactly on `SIGNED_OUT`; it adopts a session exactly on `SIGNED_IN` or `TOKEN_REFRESHED` with a session, and the session adopted is the one delivered |
| AppEntry.OtherEventsIgnored | src/main.ts:22-30 | every other event name is ignored, whatever session it carries |
| AppEntry.SessionlessEventsIgnored | src/main.ts:22-29 | `SIGNED_IN` and `TOKEN_REFRESHED` without a session are ignored |
| AppEntry.App.OnAuthStateChange | src/main.ts:19-31 | adopting sets the user and session from the delivered session; `SIGNED_OUT` clears both and issues exactly one navigation to `/login`, whatever the payload; ignored events change nothing; only sign-out navigates; `loading` and the remote side are never touched; the invariant is kept |
| AppEntry.SignOutNavigationIsAllowed | src/main.ts:24-26 | the `/login` navigation issued on sign-out is allowed by the guard once no session exists |
| AppEntry.App.Start | src/main.ts:16-34 | the handler's subscription is issued first, then exactly one `initializeAuth`, with that call's effect on the state |
| Scenarios.ClearTwiceIsClearOnce | src/stores/auth.ts:13-16 | `setAuth(null, null)` applied twice gives the same state as applied once |
| Scenarios.LoginSucceeds | src/stores/auth.ts:18-36 | a successful login stores the returned user and session, marks the store authenticated, and leaves `loading` false |
| Scenarios.UpdateWithoutUser | src/stores/auth.ts:157-162 | updating the phone with nobody signed in fails with "No user logged in", issues no remote call and leaves the table alone |
| Scenarios.UploadForU1 | src/stores/auth.ts:183-201 | `U1` uploading `me.png` stores the object under `U1.png`, and the row stored under `U1` becomes that row with only its avatar address set to the returned URL and its `updated_at` set to the update's time |
| Scenarios.RegisterThenFetch | src/stores/auth.ts:59-90 | after a successful registration, reading the new user's profile returns a row with the registered full name |
| Scenarios.SignedOutNotification | src/main.ts:19-34 | after startup with a session, `SIGNED_OUT` clears the state and navigates once to `/login`, which the guard allows |

## Left out

- The interleaving of overlapping asynchronous operations is not modelled. Operations run one at a time, so the busy flag's `true` between entry and exit is never observable, and the last-writer-wins race on the store is out of scope.
- The event subscription mechanism is not modelled. Subscribing is one logged remote call, and events are delivered by calling `OnAuthStateChange`.
- Console logging is not modelled.
- Vue and Pinia reactivity, app creation and mounting, router construction with its history, and the lazily imported view components are not modelled.
- Route names are not modelled.
- vue-router path normalisation (case-insensitive matching, trailing slashes) is not modelled. Paths match by exact equality.
- Clock reads (`new Date().toISOString()`) and `window.location.origin` are parameters. Each clock read is its own parameter: `now` for the single read in `updateProfile`, and `createdAt` and `updatedAt` for the two reads in `createProfile`. Nothing relates their values.
- The bytes of an uploaded file are not modelled. The bucket is modelled as the set of keys it holds, so an upsert of an existing key is not visible.
- The public URL of an object is a parameter (`publicUrl`). The bucket computes it from the key, and that computation is not modelled.
- The identity service, the `profiles` table and the `avatars` bucket are not modelled internally. Their answers are caller-supplied outcomes. The table is a map, and the bucket is a set of keys.
- The `supabase` client module is not part of this model.
