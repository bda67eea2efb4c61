# Point-management dashboard: stores and forms in Dafny

This project models the client-side core of a small reward-point dashboard
for workers and administrators. The core has three parts.

- **Three state stores.** The *withdrawal store* holds withdrawal requests,
  newest first. An administrator can set a request's status. The *point
  ledger* holds point transactions, newest first. It only grows, or is
  cleared. The *session store* holds the signed-in user, an authentication
  flag and a custom branding icon. Each store has a `migrate` hook that
  upgrades persisted version-0 state.
- **The profile form.** It has a schema of field rules, initial values taken
  from the user, and a submit that hands the whole form to the session
  store's `updateProfile`.
- **The login form.** It has a password-length rule and a lookup in a fixed
  list of demonstration credentials. The password is stripped from the
  matched record before it reaches the session store, and the user is
  redirected by role.

Layout, one module per file:

- `wrappers.dfy` (`Wrappers`): `Option`, used for JavaScript's optional keys.
- `types.dfy` (`Types`): `User`, `UserProfile`, `BankInfo`, `Role`,
  `AccountType`, and JavaScript truthiness of strings.
- `withdrawals.dfy` (`Withdrawals`): the withdrawal store.
- `points.dfy` (`Points`): the point ledger.
- `auth.dfy` (`Auth`): the session store.
- `pattern.dfy` (`Pattern`): the small part of JavaScript regular
  expressions that the schemas use.
- `profile_page.dfy` (`ProfilePage`): the profile form.
- `login_page.dfy` (`LoginPage`): the login form.

How the model is built:

- **Stores are classes.** Each store is a class whose fields the actions
  replace: `requests`, `transactions`, or `user`/`isAuthenticated`/`customIcon`.
- **New values are pure functions.** Each action's new value is computed by a
  pure function, and the lemmas are stated about those functions. Examples
  are `SetStatus`, `BackfillTimestamps`, `MergeUser` and `Step`.
- **zustand's `set` is `Auth.Apply`.** It merges an `AuthPatch` into the
  state: a key the action returns replaces the old value, and a key it leaves
  out is kept.
- **Random ids and the clock are parameters.** `crypto.randomUUID()` becomes
  a `freshId` parameter and `new Date().toISOString()` becomes a `now`
  parameter. `AddRequest` requires that the generated id does not collide
  with a stored one.
- **Spread-last inputs can override generated fields.** `addRequest` and
  `addTransaction` spread their argument after the generated `id`,
  `timestamp` and `status`. The argument type omits those keys, yet an object
  that still carries one overrides the generated value. `RequestInput` and
  `TransactionInput` record such keys as `Option` fields. `OmitsGenerated`
  says that none is present.
- **The clock is read once per backfilled record.** The migrations call
  `new Date()` inside the `map`, for each record that needs it. They take a
  `clock: nat -> string` whose `clock(i)` is the reading for record `i`, so
  two backfilled records may get different times. `RealClock` says that no
  reading is empty.
- **A missing timestamp is `""`.** In the list stores, a timestamp missing
  from version-0 data is written as `""`. JavaScript's `||` treats a missing
  key and `""` alike.
- **Optional user keys are `Option`.** `lastLogin`, `avatarUrl` and
  `profile` are `Option` values. So is `points`: the type declares it
  required, but the administrator entry of the credential list has no
  `points` key.

Not enforced by the code, and so not by the model:

- **Any status change is accepted.** A request has one of three statuses
  (src/stores/withdrawalStore.ts:10). `updateStatus`
  (src/stores/withdrawalStore.ts:37-42) sets any of them from any of them:
  nothing keeps a completed or rejected request final; see
  `Withdrawals.SetStatusAcceptsAnyTransition`.
- **The role can change.** `updateProfile` takes any subset of the user's
  keys, `role` included, so nothing in the store keeps the role fixed; see
  `Auth.UpdateMayChangeRole`. The profile page itself only sends `name`,
  `email` and `profile`.
- **The profile is replaced, not merged.** A nested `profile` in an update
  replaces the stored one wholesale; see `Auth.ProfileReplacedWholesale`.

## Model

| member | source | states |
|---|---|---|
| `Types.ParseAccountType` | src/pages/Profile.tsx:21 | the enum rule accepts exactly 普通 and 当座 |
| `Types.AccountTypeLabel` | src/types/index.ts:19 | each account type has one of the two labels, and parsing the label gives the type back |
| `Types.OrElseSettles` | src/stores/withdrawalStore.ts:56 | a logical-or fallback to a non-empty reading gives a non-empty string, so falling back again, to anything, keeps it |
| `Withdrawals.NewRequest` | src/stores/withdrawalStore.ts:25-36 | the new record copies userId, userName, amount and paymentMethod; with an Omit-typed argument it has the fresh id, `now` and status pending; a smuggled id, timestamp or status key wins over the generated value |
| `Withdrawals.SetStatus` | src/stores/withdrawalStore.ts:37-42 | same length, same ids in the same order; every entry with the id gets the new status with all other fields kept; every other entry is unchanged |
| `Withdrawals.SetStatusUnknownId` | src/stores/withdrawalStore.ts:39-41 | an id that matches no request leaves the list identical |
| `Withdrawals.SetStatusLastWins` | src/stores/withdrawalStore.ts:37-42 | two updates of one id equal the second update alone |
| `Withdrawals.SetStatusAcceptsAnyTransition` | src/stores/withdrawalStore.ts:37-42 | a request in any status, completed or rejected included, takes any new status; no transition is refused |
| `Withdrawals.SetStatusKeepsUniqueIds` | src/stores/withdrawalStore.ts:39-41 | a status update keeps distinct ids distinct |
| `Withdrawals.PrependFreshKeepsUniqueIds` | src/stores/withdrawalStore.ts:27-35 | prepending a request with a fresh id keeps the ids distinct |
| `Withdrawals.BackfillTimestamps` | src/stores/withdrawalStore.ts:54-57 | same length and order; a truthy timestamp is kept, an empty one becomes the clock reading taken for that record; no other field changes |
| `Withdrawals.Migrate` | src/stores/withdrawalStore.ts:49-61 | version 0 backfills every falsy timestamp with that record's clock reading and keeps everything else; any other version returns the state unchanged |
| `Withdrawals.MigrateFillsTimestamps` | src/stores/withdrawalStore.ts:54-57 | after a version-0 migration with a real clock, every timestamp is non-empty |
| `Withdrawals.MigrateIdempotent` | src/stores/withdrawalStore.ts:49-61 | running the version-0 step again, with any later readings, changes nothing |
| `Withdrawals.MigrateTwiceSameTime` | src/stores/withdrawalStore.ts:49-61 | with the same readings, migrating twice equals migrating once |
| `Withdrawals.AddThenComplete` | src/stores/withdrawalStore.ts:25-42 | adding a 5000 bank request and completing it by its id gives exactly one completed request with that amount and method |
| `Withdrawals.WithdrawalStore.constructor` | src/stores/withdrawalStore.ts:24 | the store starts empty |
| `Withdrawals.WithdrawalStore.AddRequest` | src/stores/withdrawalStore.ts:25-36 | the list becomes the new record followed by the old list; with an Omit-typed argument the head is pending and distinct ids stay distinct |
| `Withdrawals.WithdrawalStore.UpdateStatus` | src/stores/withdrawalStore.ts:37-42 | the list becomes `SetStatus` of the old list; an unknown id changes nothing; distinct ids stay distinct |
| `Withdrawals.WithdrawalStore.ClearRequests` | src/stores/withdrawalStore.ts:43 | the list becomes empty |
| `Points.NewTransaction` | src/stores/pointStore.ts:15-22 | the new record copies every input field; with an Omit-typed argument it has the fresh id and `now`; a smuggled id or timestamp wins |
| `Points.StepEffect` | src/stores/pointStore.ts:15-26 | one action: an addition puts exactly the new record in front of the unchanged ledger; clearing empties it |
| `Points.RunAdditionsKeepsOld` | src/stores/pointStore.ts:15-25 | after additions only, the length grows by the number of calls and the earlier ledger is the unchanged tail |
| `Points.RunAdditionsAt` | src/stores/pointStore.ts:15-25 | after n additions, position i holds what call n-1-i added |
| `Points.RunAdditions` | src/stores/pointStore.ts:15-25 | additions only: one entry per call, newest first, earlier entries unchanged and in order at the end |
| `Points.AdditionsFromEmpty` | src/stores/pointStore.ts:14-25 | n additions from empty give n entries, most recent first |
| `Points.RunEndingInClear` | src/stores/pointStore.ts:26 | any history that ends with clearing leaves the ledger empty |
| `Points.BackfillTimestamps` | src/stores/pointStore.ts:37-40 | same length and order; a truthy timestamp is kept, an empty one becomes the clock reading taken for that record; no other field changes |
| `Points.Migrate` | src/stores/pointStore.ts:32-44 | version 0 backfills falsy timestamps only, each with its own clock reading; any other version is the identity |
| `Points.MigrateIdempotent` | src/stores/pointStore.ts:32-44 | running the version-0 step again, with any later readings, changes nothing |
| `Points.MigrateTwiceSameTime` | src/stores/pointStore.ts:32-44 | with the same readings, migrating twice equals migrating once |
| `Points.PointStore.constructor` | src/stores/pointStore.ts:14 | the ledger starts empty |
| `Points.PointStore.AddTransaction` | src/stores/pointStore.ts:15-25 | the ledger grows by exactly the new record at the front; the old ledger is its tail |
| `Points.PointStore.ClearTransactions` | src/stores/pointStore.ts:26 | the ledger becomes empty |
| `Auth.MergeUser` | src/stores/authStore.ts:30-33 | shallow merge: each key in the update wins, `profile` included, replaced whole; each key not in it keeps its value |
| `Auth.MergeUserNeutralAndIdempotent` | src/stores/authStore.ts:32 | an empty update changes nothing; applying an update twice equals applying it once |
| `Auth.ProfileReplacedWholesale` | src/stores/authStore.ts:30-33 | stored bank details are lost when the new profile has none: no deep merge |
| `Auth.UpdateMayChangeRole` | src/stores/authStore.ts:11 | an update may carry a new role, and it takes effect |
| `Auth.Apply` | src/stores/authStore.ts:18-38 | `set`: each key the patch gives replaces the old value; each key it leaves out is kept |
| `Auth.Patch` | src/stores/authStore.ts:22-38 | which keys each action passes to `set`: `user` for every action but updateIcon, `isAuthenticated` only for login and logout, `customIcon` only for updateIcon; without a user, updateProfile and updateAvatar pass `user: null` |
| `Auth.Step` | src/stores/authStore.ts:22-38 | login stores the user with `lastLogin := now`, sets the flag and keeps the icon; logout clears the user and the flag and keeps the icon; updateProfile and updateAvatar leave a missing user missing and otherwise merge or set `avatarUrl` only; updateIcon sets only the icon |
| `Auth.StepKeepsConsistent` | src/stores/authStore.ts:19-38 | every action keeps `isAuthenticated <=> user != null` |
| `Auth.RunKeepsConsistent` | src/stores/authStore.ts:19-38 | any sequence of actions from a consistent state keeps it consistent |
| `Auth.ReachableStatesConsistent` | src/stores/authStore.ts:19-38 | the initial state is consistent, and so is every state reached from it |
| `Auth.Migrate` | src/stores/authStore.ts:44-56 | version 0 keeps a null user null, backfills a falsy `lastLogin` with `now` and keeps everything else; other versions are the identity |
| `Auth.MigrateIdempotent` | src/stores/authStore.ts:44-56 | running the version-0 step again, at any later time, changes nothing |
| `Auth.MigrateTwiceSameTime` | src/stores/authStore.ts:44-56 | with one clock reading, migrating twice equals migrating once |
| `Auth.MigrateKeepsConsistent` | src/stores/authStore.ts:44-56 | migration keeps a consistent state consistent |
| `Auth.AuthStore.constructor` | src/stores/authStore.ts:19-21 | no user, not authenticated, no icon |
| `Auth.AuthStore.Set` | src/stores/authStore.ts:18 | the fields become the patch merged into the old state |
| `Auth.AuthStore.Login` | src/stores/authStore.ts:22-28 | the user is the given one with `lastLogin = now`, authenticated, icon unchanged |
| `Auth.AuthStore.Logout` | src/stores/authStore.ts:29 | no user, not authenticated, icon unchanged |
| `Auth.AuthStore.UpdateProfile` | src/stores/authStore.ts:30-33 | a merge into a present user; nothing changes without one; flag and icon untouched |
| `Auth.AuthStore.UpdateIcon` | src/stores/authStore.ts:34 | the icon is set whatever the login state; user and flag untouched |
| `Auth.AuthStore.UpdateAvatar` | src/stores/authStore.ts:35-38 | only `avatarUrl` of a present user changes; nothing changes without one |
| `Pattern.FixedPiece` | src/pages/Profile.tsx:17 | a `{n}` repetition takes exactly n characters of its class |
| `Pattern.LastUnboundedFrom` | src/pages/Profile.tsx:15 | a final `+` repetition, tried from a given count, must take the rest of the string |
| `Pattern.LastUnbounded` | src/pages/Profile.tsx:15 | `^c{lo,}$` accepts exactly the strings of at least lo characters of the class |
| `Pattern.OnlyFixed` | src/pages/Profile.tsx:22 | `^c{n}$` accepts exactly the strings of n characters of the class |
| `ProfilePage.PhoneRule` | src/pages/Profile.tsx:15 | the phone regex accepts exactly non-empty strings of digits and hyphens |
| `ProfilePage.BirthDateRule` | src/pages/Profile.tsx:17 | the birth-date regex accepts exactly DDDD-DD-DD strings, with no calendar check |
| `ProfilePage.AccountNumberRule` | src/pages/Profile.tsx:22 | the account-number regex accepts exactly seven ASCII digits |
| `ProfilePage.FieldErrors` | src/pages/Profile.tsx:11-26 | each field is reported iff its rule fails: empty name, address, bank name, branch name or holder; bad email verdict; phone, birth date or account number of the wrong shape; an account type other than 普通 and 当座 |
| `ProfilePage.RuleExamples` | src/pages/Profile.tsx:15-22 | `---` is a phone number, `2024-13-45` a birth date, `123456` not an account number |
| `ProfilePage.Defaults` | src/pages/Profile.tsx:39-54 | with no user every text field is empty and the account type is 普通; otherwise name and email come from the user; each present profile field is copied and each missing one is empty; present bank details are copied with the account type's label, and missing ones give empty fields and 普通 |
| `ProfilePage.ToUserProfile` | src/pages/Profile.tsx:57-58 | the stored profile has every field of the form, and the parsed account type has the form's label |
| `ProfilePage.Submit` | src/pages/Profile.tsx:57-60 | a form with field errors is rejected with exactly those errors; a valid one is passed whole to `updateProfile` |
| `ProfilePage.SubmitStoresSubmittedProfile` | src/pages/Profile.tsx:57-58 | a valid form sets name, email and the whole profile to what was submitted and touches no other key; without a user nothing changes |
| `ProfilePage.SaveDefaultsUnchanged` | src/pages/Profile.tsx:39-58 | saving the untouched form of a user with a complete, valid profile changes nothing |
| `ProfilePage.DefaultsWithoutProfileRefused` | src/pages/Profile.tsx:39-54 | for a user without a profile, the initial form fails exactly on the seven profile text fields, plus name and email when those fail |
| `ProfilePage.OnSubmit` | src/pages/Profile.tsx:57-60 | with errors the store is unchanged; otherwise the store holds what `Submit` computes |
| `LoginPage.PasswordRuleExamples` | src/pages/Login.tsx:11 | five characters are refused, six accepted, and the demonstration password passes |
| `LoginPage.FindUser` | src/pages/Login.tsx:36-38 | the position of the first entry whose email and password both match, or none iff no entry matches |
| `LoginPage.WithoutPassword` | src/pages/Login.tsx:44-45 | every key of the matched entry except the password |
| `LoginPage.Redirect` | src/pages/Login.tsx:48 | `/admin` iff the role is admin, otherwise `/` |
| `LoginPage.Attempt` | src/pages/Login.tsx:34-51 | the schema blocks a bad email verdict or a password under six characters; no match gives a credential error; otherwise the first matching entry without its password is signed in and redirected by role |
| `LoginPage.ExactlyTwoPairs` | src/pages/Login.tsx:17-20 | exactly the two demonstration email/password pairs sign in |
| `LoginPage.DemoAccounts` | src/pages/Login.tsx:17-48 | the worker account reaches `/` and the administrator `/admin`, each as its entry minus the password |
| `LoginPage.OnSubmit` | src/pages/Login.tsx:34-51 | a failed attempt leaves the session store unchanged; a successful one calls `login` with the stripped record |

## Left out

- Persistence: the key/value storage, JSON serialisation and zustand's wiring of `migrate` are library and browser I/O. The serialise/deserialise round trip is therefore not modelled.
- Persisted state: the snapshots hold only the keys the stores define. Any other key that `...persistedState` would carry along is not represented.
- Version-0 data whose list key is missing would make `migrate` throw. That case is not modelled.
- Random ids and the clock are parameters: a `freshId` and a `now` for each action, and one reading per record for the list migrations. UUID uniqueness is a precondition of `AddRequest` and a hypothesis of the uniqueness lemmas.
- Email syntax: zod's `.email()` rule is not visible as text. The forms take its verdict as a boolean parameter.
- `Withdrawals.BackfillTimestamps`, `Points.BackfillTimestamps`: falsy values other than an absent or empty string, such as `null` or `0` in malformed data, are not modelled.
- `Auth.MergeUser`: an update key present with the value `undefined` would erase an optional key. It is not modelled, because an absent key and an `undefined` one are both `None`.
- `LoginPage.Attempt`: zod's `min(6)` counts UTF-16 code units. The model counts Unicode scalar values, which differ only for characters outside the Basic Multilingual Plane.
- Amounts and points are JavaScript numbers and may be fractional. The model uses unbounded integers, which the stores only copy.
- Not enforced by the code, so not invariants of the model: a non-negative point balance, and forward-only status changes (src/stores/withdrawalStore.ts:37-42). The withdrawal amount's minimum of 1000 and step of 100 are HTML input attributes only (src/pages/WithdrawalRequests.tsx:29-30); no code checks them.
- UI and side effects are not modelled: rendering, react-hook-form wiring, `toast` notifications, `useNavigate`, and the avatar handler of the profile page (lines 62-65), which only calls `updateAvatar`.
- The worker dashboard, the withdrawal page, the layout and the uploader components are not part of this model. They hold static data and display logic only.
