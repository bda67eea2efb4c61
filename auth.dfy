/**
 * The session store: the signed-in user (or none), the authentication flag
 * and a custom branding icon. Each action hands a partial state to the
 * store's `set`, which merges it key by key into the current state.
 */
module Auth {
  import opened Wrappers
  import opened Types

  /** The argument of `updateProfile`: any subset of the user's keys. */
  datatype UserUpdate = UserUpdate(
    id: Option<string>,
    name: Option<string>,
    email: Option<string>,
    role: Option<Role>,
    points: Option<int>,
    avatarUrl: Option<string>,
    profile: Option<UserProfile>,
    lastLogin: Option<string>)

  const NoUpdate: UserUpdate := UserUpdate(None, None, None, None, None, None, None, None)

  /** Patch an optional key: a key present in the update replaces the old value. */
  function Override<T>(prev: Option<T>, update: Option<T>): Option<T> {
    if update.Some? then update else prev
  }

  /**
   * `{ ...user, ...updates }`: a shallow merge. Every key in the update wins,
   * nested records included (`profile` is replaced, never merged); every
   * other key keeps its value.
   */
  function MergeUser(u: User, upd: UserUpdate): (r: User)
    ensures upd.id.Some? ==> r.id == upd.id.value
    ensures upd.id.None? ==> r.id == u.id
    ensures upd.name.Some? ==> r.name == upd.name.value
    ensures upd.name.None? ==> r.name == u.name
    ensures upd.email.Some? ==> r.email == upd.email.value
    ensures upd.email.None? ==> r.email == u.email
    ensures upd.role.Some? ==> r.role == upd.role.value
    ensures upd.role.None? ==> r.role == u.role
    ensures upd.points.Some? ==> r.points == upd.points
    ensures upd.points.None? ==> r.points == u.points
    ensures upd.avatarUrl.Some? ==> r.avatarUrl == upd.avatarUrl
    ensures upd.avatarUrl.None? ==> r.avatarUrl == u.avatarUrl
    ensures upd.profile.Some? ==> r.profile == upd.profile
    ensures upd.profile.None? ==> r.profile == u.profile
    ensures upd.lastLogin.Some? ==> r.lastLogin == upd.lastLogin
    ensures upd.lastLogin.None? ==> r.lastLogin == u.lastLogin
  {
    User(
      upd.id.GetOr(u.id),
      upd.name.GetOr(u.name),
      upd.email.GetOr(u.email),
      upd.role.GetOr(u.role),
      Override(u.points, upd.points),
      Override(u.avatarUrl, upd.avatarUrl),
      Override(u.profile, upd.profile),
      Override(u.lastLogin, upd.lastLogin))
  }

  /** An empty update changes nothing, and applying an update twice equals applying it once. */
  lemma MergeUserNeutralAndIdempotent(u: User, upd: UserUpdate)
    ensures MergeUser(u, NoUpdate) == u
    ensures MergeUser(MergeUser(u, upd), upd) == MergeUser(u, upd)
  {
  }

  /**
   * The profile is not deep-merged: bank details stored before are gone when
   * the new profile has none.
   */
  lemma ProfileReplacedWholesale(u: User, p: UserProfile)
    requires u.profile.Some? && u.profile.value.bankInfo.Some? && p.bankInfo.None?
    ensures MergeUser(u, NoUpdate.(profile := Some(p))).profile.value.bankInfo.None?
  {
  }

  /** Nothing in the store keeps the role fixed: an update may carry a new one. */
  lemma UpdateMayChangeRole(u: User)
    requires u.role == Worker
    ensures MergeUser(u, NoUpdate.(role := Some(Admin))).role == Admin
  {
  }

  /** The session state, which is also what is persisted. */
  datatype AuthSnapshot = AuthSnapshot(user: Option<User>, isAuthenticated: bool, customIcon: Option<string>)

  const Initial: AuthSnapshot := AuthSnapshot(None, false, None)

  /** The flag says exactly whether a user is signed in. */
  predicate Consistent(s: AuthSnapshot) {
    s.isAuthenticated <==> s.user.Some?
  }

  /** The partial state an action passes to `set`: a key is either given or left out. */
  datatype AuthPatch = AuthPatch(user: Option<Option<User>>, isAuthenticated: Option<bool>, customIcon: Option<Option<string>>)

  /** zustand's `set`: a shallow merge of the patch into the top-level state. */
  function Apply(s: AuthSnapshot, p: AuthPatch): (r: AuthSnapshot)
    ensures p.user.Some? ==> r.user == p.user.value
    ensures p.user.None? ==> r.user == s.user
    ensures p.isAuthenticated.Some? ==> r.isAuthenticated == p.isAuthenticated.value
    ensures p.isAuthenticated.None? ==> r.isAuthenticated == s.isAuthenticated
    ensures p.customIcon.Some? ==> r.customIcon == p.customIcon.value
    ensures p.customIcon.None? ==> r.customIcon == s.customIcon
  {
    AuthSnapshot(
      p.user.GetOr(s.user),
      p.isAuthenticated.GetOr(s.isAuthenticated),
      p.customIcon.GetOr(s.customIcon))
  }

  /** The store's actions, with the current time that `login` reads supplied by the caller. */
  datatype AuthAction =
    | Login(loginUser: User, now: string)
    | Logout
    | UpdateProfile(updates: UserUpdate)
    | UpdateIcon(icon: string)
    | UpdateAvatar(avatarUrl: string)

  /** The object each action passes to `set`, computed from the current state. */
  function Patch(s: AuthSnapshot, a: AuthAction): (p: AuthPatch)
    ensures p.user.Some? <==> !a.UpdateIcon?
    ensures p.isAuthenticated.Some? <==> a.Login? || a.Logout?
    ensures p.customIcon.Some? <==> a.UpdateIcon?
    ensures s.user.None? && (a.UpdateProfile? || a.UpdateAvatar?) ==> p.user == Some(None)
  {
    match a
    case Login(u, now) => AuthPatch(Some(Some(u.(lastLogin := Some(now)))), Some(true), None)
    case Logout => AuthPatch(Some(None), Some(false), None)
    case UpdateProfile(upd) =>
      AuthPatch(Some(if s.user.Some? then Some(MergeUser(s.user.value, upd)) else None), None, None)
    case UpdateIcon(icon) => AuthPatch(None, None, Some(Some(icon)))
    case UpdateAvatar(url) =>
      AuthPatch(Some(if s.user.Some? then Some(s.user.value.(avatarUrl := Some(url))) else None), None, None)
  }

  /** The state after one action; below, what each action does to each key. */
  function Step(s: AuthSnapshot, a: AuthAction): (r: AuthSnapshot)
    ensures a.Login? ==>
      r == AuthSnapshot(Some(a.loginUser.(lastLogin := Some(a.now))), true, s.customIcon)
    ensures a.Logout? ==> r == AuthSnapshot(None, false, s.customIcon)
    ensures a.UpdateProfile? ==> r.isAuthenticated == s.isAuthenticated && r.customIcon == s.customIcon
    ensures a.UpdateProfile? && s.user.None? ==> r == s
    ensures a.UpdateProfile? && s.user.Some? ==> r.user == Some(MergeUser(s.user.value, a.updates))
    ensures a.UpdateIcon? ==> r == s.(customIcon := Some(a.icon))
    ensures a.UpdateAvatar? && s.user.None? ==> r == s
    ensures a.UpdateAvatar? && s.user.Some? ==>
      r == s.(user := Some(s.user.value.(avatarUrl := Some(a.avatarUrl))))
  {
    Apply(s, Patch(s, a))
  }

  /** Every action keeps the flag in step with the user. */
  lemma StepKeepsConsistent(s: AuthSnapshot, a: AuthAction)
    requires Consistent(s)
    ensures Consistent(Step(s, a))
  {
  }

  function Run(s: AuthSnapshot, actions: seq<AuthAction>): AuthSnapshot
    decreases |actions|
  {
    if actions == [] then s else Run(Step(s, actions[0]), actions[1..])
  }

  /** From the initial state, any sequence of actions leaves the state consistent. */
  lemma {:induction false} RunKeepsConsistent(s: AuthSnapshot, actions: seq<AuthAction>)
    requires Consistent(s)
    ensures Consistent(Run(s, actions))
    decreases |actions|
  {
    if actions != [] {
      StepKeepsConsistent(s, actions[0]);
      RunKeepsConsistent(Step(s, actions[0]), actions[1..]);
    }
  }

  lemma ReachableStatesConsistent(actions: seq<AuthAction>)
    ensures Consistent(Initial)
    ensures Consistent(Run(Initial, actions))
  {
    RunKeepsConsistent(Initial, actions);
  }

  /** The `migrate` hook: version 0 backfills a falsy `lastLogin`; any other version is kept. */
  function Migrate(s: AuthSnapshot, version: int, now: string): (r: AuthSnapshot)
    ensures version != 0 ==> r == s
    ensures r.isAuthenticated == s.isAuthenticated && r.customIcon == s.customIcon
    ensures r.user.Some? <==> s.user.Some?
    ensures version == 0 && s.user.Some? && s.user.value.lastLogin.Some? && Truthy(s.user.value.lastLogin.value)
      ==> r.user == s.user
    ensures version == 0 && s.user.Some? && (s.user.value.lastLogin.None? || !Truthy(s.user.value.lastLogin.value))
      ==> r.user == Some(s.user.value.(lastLogin := Some(now)))
  {
    if version == 0 then
      s.(user := if s.user.Some? then Some(s.user.value.(lastLogin := Some(OrElse(s.user.value.lastLogin, now)))) else None)
    else s
  }

  /** The version-0 step, run again at any time, changes nothing once it used a real time. */
  lemma MigrateIdempotent(s: AuthSnapshot, now: string, later: string)
    requires Truthy(now)
    ensures Migrate(Migrate(s, 0, now), 0, later) == Migrate(s, 0, now)
  {
  }

  /** With a single clock reading, running the version-0 step twice equals running it once. */
  lemma MigrateTwiceSameTime(s: AuthSnapshot, now: string)
    ensures Migrate(Migrate(s, 0, now), 0, now) == Migrate(s, 0, now)
  {
  }

  /** Migration keeps a consistent persisted state consistent. */
  lemma MigrateKeepsConsistent(s: AuthSnapshot, version: int, now: string)
    requires Consistent(s)
    ensures Consistent(Migrate(s, version, now))
  {
  }

  /** The store object; `set` merges a patch into its three fields. */
  class AuthStore {
    var user: Option<User>
    var isAuthenticated: bool
    var customIcon: Option<string>

    function State(): AuthSnapshot
      reads this
    {
      AuthSnapshot(user, isAuthenticated, customIcon)
    }

    ghost predicate Valid()
      reads this
    {
      Consistent(State())
    }

    constructor ()
      ensures State() == Initial && Valid()
    {
      user, isAuthenticated, customIcon := None, false, None;
    }

    /** zustand's `set`. */
    method Set(p: AuthPatch)
      modifies this
      ensures State() == Apply(old(State()), p)
    {
      var s := Apply(State(), p);
      user, isAuthenticated, customIcon := s.user, s.isAuthenticated, s.customIcon;
    }

    /** `login`: `now` stands for the current time. */
    method Login(u: User, now: string)
      modifies this
      ensures State() == Step(old(State()), AuthAction.Login(u, now))
      ensures user == Some(u.(lastLogin := Some(now))) && isAuthenticated
      ensures customIcon == old(customIcon)
      ensures Valid()
    {
      Set(Patch(State(), AuthAction.Login(u, now)));
    }

    method Logout()
      modifies this
      ensures State() == Step(old(State()), AuthAction.Logout)
      ensures user.None? && !isAuthenticated && customIcon == old(customIcon)
      ensures Valid()
    {
      Set(Patch(State(), AuthAction.Logout));
    }

    method UpdateProfile(updates: UserUpdate)
      modifies this
      ensures State() == Step(old(State()), AuthAction.UpdateProfile(updates))
      ensures old(user).None? ==> State() == old(State())
      ensures old(user).Some? ==> user == Some(MergeUser(old(user).value, updates))
      ensures isAuthenticated == old(isAuthenticated) && customIcon == old(customIcon)
      ensures old(Valid()) ==> Valid()
    {
      Set(Patch(State(), AuthAction.UpdateProfile(updates)));
    }

    method UpdateIcon(icon: string)
      modifies this
      ensures State() == Step(old(State()), AuthAction.UpdateIcon(icon))
      ensures customIcon == Some(icon)
      ensures user == old(user) && isAuthenticated == old(isAuthenticated)
      ensures old(Valid()) ==> Valid()
    {
      Set(Patch(State(), AuthAction.UpdateIcon(icon)));
    }

    method UpdateAvatar(avatarUrl: string)
      modifies this
      ensures State() == Step(old(State()), AuthAction.UpdateAvatar(avatarUrl))
      ensures old(user).None? ==> State() == old(State())
      ensures old(user).Some? ==> user == Some(old(user).value.(avatarUrl := Some(avatarUrl)))
      ensures isAuthenticated == old(isAuthenticated) && customIcon == old(customIcon)
      ensures old(Valid()) ==> Valid()
    {
      Set(Patch(State(), AuthAction.UpdateAvatar(avatarUrl)));
    }
  }
}
