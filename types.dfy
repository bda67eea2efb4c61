/**
 * The shared records of the dashboard: a signed-in user with an optional
 * profile and bank account, and the JavaScript notion of a "truthy" string
 * that the persistence migrations rely on.
 */
module Types {
  import opened Wrappers

  datatype Role = Worker | Admin

  /** The two account kinds of a Japanese bank account: 普通 (ordinary) and 当座 (current). */
  datatype AccountType = Ordinary | Current

  const OrdinaryLabel: string := "普通"
  const CurrentLabel: string := "当座"

  function AccountTypeLabel(t: AccountType): (s: string)
    ensures s == OrdinaryLabel || s == CurrentLabel
    ensures ParseAccountType(s) == Some(t)
  {
    match t
    case Ordinary => OrdinaryLabel
    case Current => CurrentLabel
  }

  /** The enum check of the form schema: the label of an account type, or nothing. */
  function ParseAccountType(s: string): (r: Option<AccountType>)
    ensures r.Some? <==> s == OrdinaryLabel || s == CurrentLabel
  {
    if s == OrdinaryLabel then Some(Ordinary)
    else if s == CurrentLabel then Some(Current)
    else None
  }

  datatype BankInfo = BankInfo(
    bankName: string,
    branchName: string,
    accountType: AccountType,
    accountNumber: string,
    accountHolder: string)

  /** Personal details; every field may be absent. */
  datatype UserProfile = UserProfile(
    phoneNumber: Option<string>,
    address: Option<string>,
    birthDate: Option<string>,
    bankInfo: Option<BankInfo>)

  /**
   * The session user. `points` is declared required by the source's type, but
   * the administrator record of the fixed credential list has no such key, so
   * it is optional here.
   */
  datatype User = User(
    id: string,
    name: string,
    email: string,
    role: Role,
    points: Option<int>,
    avatarUrl: Option<string>,
    profile: Option<UserProfile>,
    lastLogin: Option<string>)

  /** A string is truthy in JavaScript exactly when it is not empty. */
  predicate Truthy(s: string) {
    s != ""
  }

  /**
   * A clock given as its successive readings, none of which is the empty
   * string (an ISO timestamp never is).
   */
  ghost predicate RealClock(clock: nat -> string) {
    forall i :: Truthy(clock(i))
  }

  /** `o || fallback` for an optional string: absent and "" both fall back. */
  function OrElse(o: Option<string>, fallback: string): string {
    if o.Some? && Truthy(o.value) then o.value else fallback
  }

  /**
   * With a truthy fallback the result is truthy, so falling back a second
   * time, to anything, keeps it: the reason a backfill settles after one run.
   */
  lemma OrElseSettles(o: Option<string>, fallback: string, later: string)
    requires Truthy(fallback)
    ensures Truthy(OrElse(o, fallback))
    ensures OrElse(Some(OrElse(o, fallback)), later) == OrElse(o, fallback)
  {
  }
}
