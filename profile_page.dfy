/**
 * The profile page: the form schema that every field must pass, the form's
 * initial values taken from the signed-in user, and the submission that
 * hands the whole validated form to the session store's `updateProfile`.
 */
module ProfilePage {
  import opened Wrappers
  import opened Types
  import opened Pattern
  import Auth

  datatype BankForm = BankForm(
    bankName: string,
    branchName: string,
    accountType: string,
    accountNumber: string,
    accountHolder: string)

  datatype ProfileFields = ProfileFields(
    phoneNumber: string,
    address: string,
    birthDate: string,
    bankInfo: BankForm)

  datatype ProfileForm = ProfileForm(name: string, email: string, profile: ProfileFields)

  /** The form fields, each of which can carry its own validation message. */
  datatype Field =
    | Name | Email | PhoneNumber | Address | BirthDate
    | BankName | BranchName | AccountTypeField | AccountNumber | AccountHolder

  /** `^[0-9-]+$` */
  const PhonePattern: seq<Piece> := [Piece(DigitOrHyphen, 1, None)]

  /** `^\d{4}-\d{2}-\d{2}$` */
  const BirthDatePattern: seq<Piece> :=
    [Exactly(Digit, 4), Exactly(Char('-'), 1), Exactly(Digit, 2), Exactly(Char('-'), 1), Exactly(Digit, 2)]

  /** `^\d{7}$` */
  const AccountNumberPattern: seq<Piece> := [Exactly(Digit, 7)]

  /** `z.string().min(1)` */
  predicate NonEmpty(s: string) {
    |s| >= 1
  }

  /** A non-empty string of digits and hyphens; hyphens alone pass. */
  predicate PhoneShape(s: string) {
    |s| >= 1 && forall i :: 0 <= i < |s| ==> IsDigit(s[i]) || s[i] == '-'
  }

  /** Four digits, a hyphen, two digits, a hyphen, two digits; no calendar check. */
  predicate DateShape(s: string) {
    && |s| == 10
    && s[4] == '-' && s[7] == '-'
    && forall i :: 0 <= i < 10 && i != 4 && i != 7 ==> IsDigit(s[i])
  }

  /** Exactly seven ASCII digits. */
  predicate AccountNumberShape(s: string) {
    |s| == 7 && forall i :: 0 <= i < 7 ==> IsDigit(s[i])
  }

  lemma PhoneRule(s: string)
    ensures FullMatch(PhonePattern, s) <==> PhoneShape(s)
  {
    LastUnbounded(DigitOrHyphen, 1, s);
  }

  lemma AccountNumberRule(s: string)
    ensures FullMatch(AccountNumberPattern, s) <==> AccountNumberShape(s)
  {
    OnlyFixed(Digit, 7, s);
  }

  lemma BirthDateRule(s: string)
    ensures FullMatch(BirthDatePattern, s) <==> DateShape(s)
  {
    var p := BirthDatePattern;
    FixedPiece(p, s);
    if 4 <= |s| {
      var s1 := s[4..];
      FixedPiece(p[1..], s1);
      if 1 <= |s1| {
        var s2 := s1[1..];
        FixedPiece(p[2..], s2);
        assert p[1..][1..] == p[2..];
        if 2 <= |s2| {
          var s3 := s2[2..];
          FixedPiece(p[3..], s3);
          assert p[2..][1..] == p[3..];
          if 1 <= |s3| {
            var s4 := s3[1..];
            assert p[3..][1..] == [Exactly(Digit, 2)];
            OnlyFixed(Digit, 2, s4);
            if |s| == 10 {
              assert s4 == s[8..];
              assert s3[..1] == s[7..8];
              assert s2[..2] == s[5..7];
              assert s1[..1] == s[4..5];
            }
          }
        }
      }
    }
  }

  const AllFields: set<Field> :=
    {Name, Email, PhoneNumber, Address, BirthDate, BankName, BranchName, AccountTypeField, AccountNumber, AccountHolder}

  /** The schema's rule for one field; an email verdict stands for zod's own email check. */
  predicate Fails(f: ProfileForm, emailWellFormed: bool, field: Field) {
    var p := f.profile;
    var b := p.bankInfo;
    match field
    case Name => !NonEmpty(f.name)
    case Email => !emailWellFormed
    case PhoneNumber => !FullMatch(PhonePattern, p.phoneNumber)
    case Address => !NonEmpty(p.address)
    case BirthDate => !FullMatch(BirthDatePattern, p.birthDate)
    case BankName => !NonEmpty(b.bankName)
    case BranchName => !NonEmpty(b.branchName)
    case AccountTypeField => ParseAccountType(b.accountType).None?
    case AccountNumber => !FullMatch(AccountNumberPattern, b.accountNumber)
    case AccountHolder => !NonEmpty(b.accountHolder)
  }

  /** The fields the schema rejects. */
  function FieldErrors(f: ProfileForm, emailWellFormed: bool): (errs: set<Field>)
    ensures Name in errs <==> f.name == ""
    ensures Email in errs <==> !emailWellFormed
    ensures PhoneNumber in errs <==> !PhoneShape(f.profile.phoneNumber)
    ensures Address in errs <==> f.profile.address == ""
    ensures BirthDate in errs <==> !DateShape(f.profile.birthDate)
    ensures BankName in errs <==> f.profile.bankInfo.bankName == ""
    ensures BranchName in errs <==> f.profile.bankInfo.branchName == ""
    ensures AccountTypeField in errs <==> ParseAccountType(f.profile.bankInfo.accountType).None?
    ensures AccountNumber in errs <==> !AccountNumberShape(f.profile.bankInfo.accountNumber)
    ensures AccountHolder in errs <==> f.profile.bankInfo.accountHolder == ""
  {
    PhoneRule(f.profile.phoneNumber);
    BirthDateRule(f.profile.birthDate);
    AccountNumberRule(f.profile.bankInfo.accountNumber);
    set x | x in AllFields && Fails(f, emailWellFormed, x)
  }

  predicate Valid(f: ProfileForm, emailWellFormed: bool) {
    FieldErrors(f, emailWellFormed) == {}
  }

  /** Examples of what the rules let through and what they refuse. */
  lemma RuleExamples()
    ensures PhoneShape("---") && !PhoneShape("")
    ensures DateShape("2024-13-45") && !DateShape("2024/01/01")
    ensures AccountNumberShape("0123456") && !AccountNumberShape("123456") && !AccountNumberShape("12345678")
  {
    assert "2024/01/01"[4] == '/';
    assert !IsDigit("123456"[0]) || |"123456"| != 7;
  }

  /** The form's initial values: what the user has, `''` where nothing, and 普通 as the account type. */
  function Defaults(user: Option<User>): (f: ProfileForm)
    ensures user.None? ==> f == ProfileForm("", "", ProfileFields("", "", "", BankForm("", "", OrdinaryLabel, "", "")))
    ensures user.Some? ==> f.name == user.value.name && f.email == user.value.email
    ensures user.Some? && user.value.profile.None? ==>
      f.profile == ProfileFields("", "", "", BankForm("", "", OrdinaryLabel, "", ""))
    ensures user.Some? && user.value.profile.Some? ==>
      var p := user.value.profile.value;
      && f.profile.phoneNumber == p.phoneNumber.GetOr("")
      && f.profile.address == p.address.GetOr("")
      && f.profile.birthDate == p.birthDate.GetOr("")
    ensures user.Some? && user.value.profile.Some? && user.value.profile.value.bankInfo.None? ==>
      f.profile.bankInfo == BankForm("", "", OrdinaryLabel, "", "")
    ensures user.Some? && user.value.profile.Some? && user.value.profile.value.bankInfo.Some? ==>
      var b := user.value.profile.value.bankInfo.value;
      f.profile.bankInfo == BankForm(b.bankName, b.branchName, AccountTypeLabel(b.accountType), b.accountNumber, b.accountHolder)
  {
    var profile := if user.Some? then user.value.profile else None;
    var bank := if profile.Some? then profile.value.bankInfo else None;
    ProfileForm(
      OrElse(if user.Some? then Some(user.value.name) else None, ""),
      OrElse(if user.Some? then Some(user.value.email) else None, ""),
      ProfileFields(
        OrElse(if profile.Some? then profile.value.phoneNumber else None, ""),
        OrElse(if profile.Some? then profile.value.address else None, ""),
        OrElse(if profile.Some? then profile.value.birthDate else None, ""),
        BankForm(
          OrElse(if bank.Some? then Some(bank.value.bankName) else None, ""),
          OrElse(if bank.Some? then Some(bank.value.branchName) else None, ""),
          if bank.Some? then AccountTypeLabel(bank.value.accountType) else OrdinaryLabel,
          OrElse(if bank.Some? then Some(bank.value.accountNumber) else None, ""),
          OrElse(if bank.Some? then Some(bank.value.accountHolder) else None, ""))))
  }

  /** The stored profile a valid form describes: every field present. */
  function ToUserProfile(p: ProfileFields): (r: UserProfile)
    requires ParseAccountType(p.bankInfo.accountType).Some?
    ensures r.phoneNumber == Some(p.phoneNumber) && r.address == Some(p.address)
    ensures r.birthDate == Some(p.birthDate) && r.bankInfo.Some?
    ensures AccountTypeLabel(r.bankInfo.value.accountType) == p.bankInfo.accountType
    ensures r.bankInfo.value.bankName == p.bankInfo.bankName
    ensures r.bankInfo.value.branchName == p.bankInfo.branchName
    ensures r.bankInfo.value.accountNumber == p.bankInfo.accountNumber
    ensures r.bankInfo.value.accountHolder == p.bankInfo.accountHolder
  {
    var b := p.bankInfo;
    UserProfile(
      Some(p.phoneNumber),
      Some(p.address),
      Some(p.birthDate),
      Some(BankInfo(b.bankName, b.branchName, ParseAccountType(b.accountType).value, b.accountNumber, b.accountHolder)))
  }

  /** The update `onSubmit` passes: exactly the form's three top-level keys. */
  function FormUpdate(f: ProfileForm): Auth.UserUpdate
    requires ParseAccountType(f.profile.bankInfo.accountType).Some?
  {
    Auth.NoUpdate.(name := Some(f.name), email := Some(f.email), profile := Some(ToUserProfile(f.profile)))
  }

  datatype SubmitResult = Rejected(errors: set<Field>) | Saved(state: Auth.AuthSnapshot)

  /** Submitting the form: field errors block it; otherwise the session store's `updateProfile` runs. */
  function Submit(s: Auth.AuthSnapshot, f: ProfileForm, emailWellFormed: bool): (r: SubmitResult)
    ensures r.Rejected? <==> !Valid(f, emailWellFormed)
    ensures r.Rejected? ==> r.errors == FieldErrors(f, emailWellFormed)
    ensures r.Saved? ==> r.state == Auth.Step(s, Auth.UpdateProfile(FormUpdate(f)))
  {
    var errs := FieldErrors(f, emailWellFormed);
    if errs != {} then Rejected(errs) else Saved(Auth.Step(s, Auth.UpdateProfile(FormUpdate(f))))
  }

  /**
   * A saved form replaces the name, the email and the whole stored profile
   * with what was submitted, and touches nothing else; without a signed-in
   * user nothing changes.
   */
  lemma SubmitStoresSubmittedProfile(s: Auth.AuthSnapshot, f: ProfileForm, emailWellFormed: bool)
    requires Valid(f, emailWellFormed)
    ensures Submit(s, f, emailWellFormed).Saved?
    ensures s.user.None? ==> Submit(s, f, emailWellFormed).state == s
    ensures s.user.Some? ==> (Submit(s, f, emailWellFormed).state ==
      s.(user := Some(s.user.value.(name := f.name, email := f.email, profile := Some(ToUserProfile(f.profile))))))
  {
    var r := Submit(s, f, emailWellFormed);
    if s.user.Some? {
      var u := s.user.value;
      var merged := Auth.MergeUser(u, FormUpdate(f));
      assert merged == u.(name := f.name, email := f.email, profile := Some(ToUserProfile(f.profile)));
    }
  }

  /** Every field of a stored profile is present. */
  predicate Complete(u: User) {
    && u.profile.Some?
    && u.profile.value.phoneNumber.Some?
    && u.profile.value.address.Some?
    && u.profile.value.birthDate.Some?
    && u.profile.value.bankInfo.Some?
  }

  /**
   * Saving the untouched form of a user with a complete profile changes
   * nothing, provided that form passes the schema.
   */
  lemma SaveDefaultsUnchanged(s: Auth.AuthSnapshot, emailWellFormed: bool)
    requires s.user.Some? && Complete(s.user.value)
    requires Valid(Defaults(s.user), emailWellFormed)
    ensures Submit(s, Defaults(s.user), emailWellFormed) == Saved(s)
  {
    var u := s.user.value;
    var f := Defaults(s.user);
    var p := u.profile.value;
    var b := p.bankInfo.value;
    assert f.profile.phoneNumber == p.phoneNumber.value;
    assert f.profile.address == p.address.value;
    assert f.profile.birthDate == p.birthDate.value;
    assert f.profile.bankInfo == BankForm(b.bankName, b.branchName, AccountTypeLabel(b.accountType), b.accountNumber, b.accountHolder);
    assert ToUserProfile(f.profile) == p;
    SubmitStoresSubmittedProfile(s, f, emailWellFormed);
  }

  /**
   * A user without a profile cannot submit the initial form as it is: every
   * profile text field starts empty and is refused; the account type 普通 is
   * accepted.
   */
  lemma DefaultsWithoutProfileRefused(u: User, emailWellFormed: bool)
    requires u.profile.None?
    ensures FieldErrors(Defaults(Some(u)), emailWellFormed) ==
      {PhoneNumber, Address, BirthDate, BankName, BranchName, AccountNumber, AccountHolder}
      + (if u.name == "" then {Name} else {})
      + (if emailWellFormed then {} else {Email})
  {
    var errs := FieldErrors(Defaults(Some(u)), emailWellFormed);
    var want := {PhoneNumber, Address, BirthDate, BankName, BranchName, AccountNumber, AccountHolder}
      + (if u.name == "" then {Name} else {})
      + (if emailWellFormed then {} else {Email});
    assert ParseAccountType(OrdinaryLabel) == Some(Ordinary);
    forall x: Field ensures x in errs <==> x in want {
    }
  }

  /** `onSubmit` against the live store, reached only once the schema has passed. */
  method OnSubmit(store: Auth.AuthStore, f: ProfileForm, emailWellFormed: bool) returns (errors: set<Field>)
    modifies store
    ensures errors == FieldErrors(f, emailWellFormed)
    ensures errors != {} ==> store.State() == old(store.State())
    ensures errors == {} ==> Submit(old(store.State()), f, emailWellFormed) == Saved(store.State())
  {
    errors := FieldErrors(f, emailWellFormed);
    if errors == {} {
      store.UpdateProfile(FormUpdate(f));
    }
  }
}
