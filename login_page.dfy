/**
 * The login page: the password-length rule of its form schema, the lookup
 * against a fixed list of demonstration credentials, the record handed to
 * the session store without its password, and where the user is sent next.
 */
module LoginPage {
  import opened Wrappers
  import opened Types
  import Auth

  /** One entry of the fixed credential list: a user record that still carries its password. */
  datatype MockUser = MockUser(
    id: string,
    email: string,
    password: string,
    name: string,
    role: Role,
    points: Option<int>)

  const WorkerEmail: string := "worker@example.com"
  const AdminEmail: string := "admin@example.com"
  const DemoPassword: string := "password"

  /** The administrator entry has no `points` key. */
  const MockUsers: seq<MockUser> := [
    MockUser("1", WorkerEmail, DemoPassword, "山田 太郎", Worker, Some(0)),
    MockUser("2", AdminEmail, DemoPassword, "鈴木 管理者", Admin, None)
  ]

  /** `z.string().min(6)` */
  predicate PasswordAccepted(password: string) {
    |password| >= 6
  }

  /** Five characters are refused, six accepted; the demonstration password passes. */
  lemma PasswordRuleExamples()
    ensures !PasswordAccepted("abcde") && PasswordAccepted("abcdef")
    ensures PasswordAccepted(DemoPassword)
  {
  }

  predicate Matches(m: MockUser, email: string, password: string) {
    m.email == email && m.password == password
  }

  /** `find`: the position of the first entry whose email and password both match. */
  function FindUser(users: seq<MockUser>, email: string, password: string): (r: Option<nat>)
    ensures r.Some? ==> r.value < |users| && Matches(users[r.value], email, password)
    ensures r.Some? ==> forall j :: 0 <= j < r.value ==> !Matches(users[j], email, password)
    ensures r.None? <==> forall j :: 0 <= j < |users| ==> !Matches(users[j], email, password)
  {
    if users == [] then None
    else if Matches(users[0], email, password) then Some(0)
    else
      match FindUser(users[1..], email, password)
      case None => None
      case Some(i) => Some(i + 1)
  }

  /** `const { password, ...userWithoutPassword } = user`: every other key, as a session user. */
  function WithoutPassword(m: MockUser): (u: User)
    ensures u.id == m.id && u.email == m.email && u.name == m.name
    ensures u.role == m.role && u.points == m.points
    ensures u.avatarUrl.None? && u.profile.None? && u.lastLogin.None?
  {
    User(m.id, m.name, m.email, m.role, m.points, None, None, None)
  }

  /** The route after signing in. */
  function Redirect(role: Role): (path: string)
    ensures path == "/admin" <==> role == Admin
    ensures role != Admin ==> path == "/"
  {
    if role == Admin then "/admin" else "/"
  }

  datatype LoginOutcome =
    | InvalidForm(emailMalformed: bool, passwordTooShort: bool)
    | WrongCredentials
    | LoggedIn(user: User, redirect: string)

  /**
   * One sign-in attempt. The schema runs first and blocks the submission; a
   * lookup that finds nothing is reported and signs no one in.
   */
  function Attempt(email: string, emailWellFormed: bool, password: string): (r: LoginOutcome)
    ensures r.InvalidForm? <==> !emailWellFormed || !PasswordAccepted(password)
    ensures r.InvalidForm? ==> r.emailMalformed == !emailWellFormed && r.passwordTooShort == !PasswordAccepted(password)
    ensures r.WrongCredentials? <==>
      emailWellFormed && PasswordAccepted(password) && forall m <- MockUsers :: !Matches(m, email, password)
    ensures r.LoggedIn? ==> exists i :: (
      && 0 <= i < |MockUsers| && Matches(MockUsers[i], email, password)
      && (forall j :: 0 <= j < i ==> !Matches(MockUsers[j], email, password))
      && r.user == WithoutPassword(MockUsers[i]) && r.redirect == Redirect(MockUsers[i].role))
  {
    if !emailWellFormed || !PasswordAccepted(password) then
      InvalidForm(!emailWellFormed, !PasswordAccepted(password))
    else
      match FindUser(MockUsers, email, password)
      case None => WrongCredentials
      case Some(i) => LoggedIn(WithoutPassword(MockUsers[i]), Redirect(MockUsers[i].role))
  }

  /** With the fixed list, exactly two email and password pairs sign in. */
  lemma ExactlyTwoPairs(email: string, password: string)
    ensures Attempt(email, true, password).LoggedIn? <==>
      password == DemoPassword && (email == WorkerEmail || email == AdminEmail)
  {
    assert |DemoPassword| == 8;
    var r := Attempt(email, true, password);
    if password == DemoPassword && (email == WorkerEmail || email == AdminEmail) {
      assert Matches(MockUsers[if email == WorkerEmail then 0 else 1], email, password);
    }
  }

  /** The two accounts: the worker goes to the dashboard, the administrator to `/admin`. */
  lemma DemoAccounts()
    ensures Attempt(WorkerEmail, true, DemoPassword)
         == LoggedIn(User("1", "山田 太郎", WorkerEmail, Worker, Some(0), None, None, None), "/")
    ensures Attempt(AdminEmail, true, DemoPassword)
         == LoggedIn(User("2", "鈴木 管理者", AdminEmail, Admin, None, None, None, None), "/admin")
  {
    assert |DemoPassword| == 8;
    assert WorkerEmail != AdminEmail by { assert WorkerEmail[0] != AdminEmail[0]; }
    assert Matches(MockUsers[0], WorkerEmail, DemoPassword);
    assert !Matches(MockUsers[0], AdminEmail, DemoPassword);
    assert MockUsers[1..][0] == MockUsers[1];
    assert FindUser(MockUsers[1..], AdminEmail, DemoPassword) == Some(0);
  }

  /** `onSubmit` against the live store; `now` stands for the time `login` stamps. */
  method OnSubmit(store: Auth.AuthStore, email: string, emailWellFormed: bool, password: string, now: string)
    returns (outcome: LoginOutcome)
    modifies store
    ensures outcome == Attempt(email, emailWellFormed, password)
    ensures !outcome.LoggedIn? ==> store.State() == old(store.State())
    ensures outcome.LoggedIn? ==>
      store.State() == Auth.Step(old(store.State()), Auth.Login(outcome.user, now))
    ensures outcome.LoggedIn? ==>
      store.user == Some(outcome.user.(lastLogin := Some(now))) && store.isAuthenticated
  {
    outcome := Attempt(email, emailWellFormed, password);
    if outcome.LoggedIn? {
      store.Login(outcome.user, now);
    }
  }
}
