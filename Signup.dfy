/** The signup form (src/pages/Register.tsx): three checks in a fixed order
    before `register` is called, an empty referral field passed as no code,
    and a refused registration reported as an already-registered number. */
module Signup {
  import opened Types
  import opened Auth

  const MinPasswordLength: nat := 6
  const MinDanaLength: nat := 10

  datatype SignupError = PasswordMismatch | PasswordTooShort | InvalidDanaNumber | AlreadyRegistered

  /** The form fields as typed; an untouched field is the empty string. */
  datatype SignupForm = SignupForm(
    name: string,
    danaNumber: string,
    danaName: string,
    email: string,
    password: string,
    confirmPassword: string,
    referralCode: string)

  /** The checks of `handleSubmit`, first failure wins: the confirmation,
      then the password length, then the DANA number length. */
  function Validate(f: SignupForm): (r: Option<SignupError>)
    ensures r == Some(PasswordMismatch) <==> f.password != f.confirmPassword
    ensures r == Some(PasswordTooShort) <==> f.password == f.confirmPassword && |f.password| < MinPasswordLength
    ensures r == Some(InvalidDanaNumber) <==>
      f.password == f.confirmPassword && |f.password| >= MinPasswordLength && |f.danaNumber| < MinDanaLength
    ensures r.None? <==>
      f.password == f.confirmPassword && |f.password| >= MinPasswordLength && |f.danaNumber| >= MinDanaLength
  {
    if f.password != f.confirmPassword then Some(PasswordMismatch)
    else if |f.password| < MinPasswordLength then Some(PasswordTooShort)
    else if |f.danaNumber| < MinDanaLength then Some(InvalidDanaNumber)
    else None
  }

  /** What the form passes to `register`: `referralCode || undefined`. */
  function ToRegisterData(f: SignupForm): (d: RegisterData)
    ensures d.referralCode.None? <==> f.referralCode == ""
    ensures d.referralCode.Some? ==> Truthy(d.referralCode) && d.referralCode.value == f.referralCode
    ensures d.danaNumber == f.danaNumber && d.password == f.password && d.name == f.name
    ensures d.danaName == f.danaName && d.email == f.email
  {
    RegisterData(f.name, f.danaNumber, f.danaName, f.email, f.password,
                 if f.referralCode == "" then None else Some(f.referralCode))
  }

  /** `handleSubmit`: `None` is success (the page then moves to the dashboard). */
  method Submit(ledger: Ledger, f: SignupForm, id: string, codeSuffix: string, referralId: string, now: int)
    returns (r: Option<SignupError>)
    modifies ledger
    ensures Validate(f).Some? ==> r == Validate(f) && ledger.State() == old(ledger.State())
    ensures Validate(f).None? ==>
      && ledger.State() == AfterRegister(old(ledger.State()), ToRegisterData(f), id, codeSuffix, referralId, now)
      && (r.None? <==> !DanaTaken(old(ledger.users), f.danaNumber))
      && (r.Some? ==> r == Some(AlreadyRegistered))
  {
    if f.password != f.confirmPassword {
      return Some(PasswordMismatch);
    }
    if |f.password| < MinPasswordLength {
      return Some(PasswordTooShort);
    }
    if |f.danaNumber| < MinDanaLength {
      return Some(InvalidDanaNumber);
    }
    var success := ledger.Register(ToRegisterData(f), id, codeSuffix, referralId, now);
    if success {
      r := None;
    } else {
      r := Some(AlreadyRegistered);
    }
  }

  /** An empty referral field is no referral: nobody is credited, no record
      is written, the newcomer starts at zero and carries no `referredBy`. */
  lemma EmptyCodeMeansNoReferral(st: LedgerState, f: SignupForm, id: string, codeSuffix: string,
                                 referralId: string, now: int)
    requires f.referralCode == ""
    requires !DanaTaken(st.users, f.danaNumber)
    ensures var r := AfterRegister(st, ToRegisterData(f), id, codeSuffix, referralId, now);
      && r.users[..|st.users|] == st.users
      && r.referrals == st.referrals
      && r.users[|st.users|].balance == 0
      && r.users[|st.users|].referredBy.None?
  {
  }

  /** A form that passes the checks and names a code held by some stored
      user credits that user and the newcomer with the signup bonus each. */
  lemma ReferredSignupPaysBoth(st: LedgerState, f: SignupForm, id: string, codeSuffix: string,
                               referralId: string, now: int, j: nat)
    requires Validate(f).None? && !DanaTaken(st.users, f.danaNumber)
    requires j < |st.users| && st.users[j].referralCode == f.referralCode && f.referralCode != ""
    requires forall l :: 0 <= l < j ==> st.users[l].referralCode != f.referralCode
    ensures var r := AfterRegister(st, ToRegisterData(f), id, codeSuffix, referralId, now);
      && r.users[j].balance == st.users[j].balance + SignupBonus
      && r.users[j].referrals == st.users[j].referrals + 1
      && r.users[|st.users|].balance == SignupBonus
      && |r.referrals| == |st.referrals| + 1
      && r.referrals[|st.referrals|].referrerId == st.users[j].id
      && r.referrals[|st.referrals|].bonus == SignupBonus
  {
    var d := ToRegisterData(f);
    assert st.users[j].referralCode == d.referralCode.value;
    assert ReferrerIndex(st.users, d.referralCode) == Some(j);
  }
}
