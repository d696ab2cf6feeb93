/**
 * `src/pages/ProfilePage.tsx`: the guards of the profile and credentials forms, and
 * what each dispatches once its guard passes.
 */
module ProfilePage {
  import opened Wrappers
  import Text
  import Checks
  import AuthSlice

  const NameRequired := "Name required"
  const SurnameRequired := "Surname required"
  const EmailRequired := "Email required"
  const PasswordTooShort := "Password must be at least 6 characters"
  const PasswordMismatch := "Passwords do not match"

  /** What a handler does: alert and return, or dispatch its thunk. */
  datatype Submit<P> = Alerted(message: string) | Dispatched(payload: P)

  datatype ProfilePayload = ProfilePayload(id: string, name: string, surname: string, cell: string)
  datatype CredentialsPayload = CredentialsPayload(id: string, email: string, newPassword: Option<string>)

  /** The profile checks: name and surname must not be blank; the cell is not checked. */
  function ProfileChecks(name: string, surname: string): (cs: seq<Checks.Check>)
    ensures |cs| == 2
  {
    [Checks.Check(!Text.IsBlank(name), NameRequired)] + [Checks.Check(!Text.IsBlank(surname), SurnameRequired)]
  }

  /** `updateProfile()`: the values are dispatched as typed, untrimmed. */
  function UpdateProfile(id: string, name: string, surname: string, cell: string): (r: Submit<ProfilePayload>)
    ensures r.Alerted? <==> Text.IsBlank(name) || Text.IsBlank(surname)
    ensures r.Dispatched? ==> r.payload == ProfilePayload(id, name, surname, cell)
  {
    if Text.IsBlank(name) then Alerted(NameRequired)
    else if Text.IsBlank(surname) then Alerted(SurnameRequired)
    else Dispatched(ProfilePayload(id, name, surname, cell))
  }

  /**
   * The credential checks: the email must not be blank; a non-empty password must be
   * at least 6 characters and equal its confirmation; an empty one skips both.
   */
  function CredentialsChecks(email: string, password: string, confirm: string): (cs: seq<Checks.Check>)
    ensures |cs| == 3
  {
    [Checks.Check(!Text.IsBlank(email), EmailRequired)]
    + ([Checks.Check(password == "" || |password| >= 6, PasswordTooShort)]
       + [Checks.Check(password == "" || password == confirm, PasswordMismatch)])
  }

  /** `updateCredentials()`: an empty password is sent as no password; the email as typed. */
  function UpdateCredentials(id: string, email: string, password: string, confirm: string): (r: Submit<CredentialsPayload>)
    ensures r.Alerted? <==> Text.IsBlank(email) || (password != "" && (|password| < 6 || password != confirm))
    ensures r.Dispatched? ==> r.payload.id == id && r.payload.email == email
    ensures r.Dispatched? ==> (r.payload.newPassword.None? <==> password == "")
    ensures r.Dispatched? && password != "" ==> r.payload.newPassword == Some(password)
  {
    if Text.IsBlank(email) then Alerted(EmailRequired)
    else if password != "" && |password| < 6 then Alerted(PasswordTooShort)
    else if password != "" && password != confirm then Alerted(PasswordMismatch)
    else Dispatched(CredentialsPayload(id, email, if password == "" then None else Some(password)))
  }

  /** The profile guard reports the message of its first failing check. */
  lemma ProfileGuardIsFirstFailure(id: string, name: string, surname: string, cell: string)
    ensures match UpdateProfile(id, name, surname, cell)
            case Alerted(m) => Checks.FirstFailure(ProfileChecks(name, surname)) == Some(m)
            case Dispatched(_) => Checks.FirstFailure(ProfileChecks(name, surname)).None?
  {
    var c0 := Checks.Check(!Text.IsBlank(name), NameRequired);
    var c1 := Checks.Check(!Text.IsBlank(surname), SurnameRequired);
    Checks.FirstFailureCons(c0, [c1]);
    Checks.FirstFailureCons(c1, []);
    assert [c1] == [c1] + [];
  }

  /** The credentials guard reports the message of its first failing check. */
  lemma CredentialsGuardIsFirstFailure(id: string, email: string, password: string, confirm: string)
    ensures match UpdateCredentials(id, email, password, confirm)
            case Alerted(m) => Checks.FirstFailure(CredentialsChecks(email, password, confirm)) == Some(m)
            case Dispatched(_) => Checks.FirstFailure(CredentialsChecks(email, password, confirm)).None?
  {
    var c0 := Checks.Check(!Text.IsBlank(email), EmailRequired);
    var c1 := Checks.Check(password == "" || |password| >= 6, PasswordTooShort);
    var c2 := Checks.Check(password == "" || password == confirm, PasswordMismatch);
    Checks.FirstFailureCons(c0, [c1] + [c2]);
    Checks.FirstFailureCons(c1, [c2]);
    Checks.FirstFailureCons(c2, []);
    assert [c2] == [c2] + [];
  }

  /**
   * End to end with `updateCredentialsThunk`: the stored hash changes exactly when a
   * password was typed, and then that password is at least 6 characters and confirmed.
   */
  lemma CredentialsHashOnlyForConfirmedPassword(id: string, email: string, password: string, confirm: string,
                                                hash: string -> string, now: string)
    requires UpdateCredentials(id, email, password, confirm).Dispatched?
    ensures var p := UpdateCredentials(id, email, password, confirm).payload;
            var patch := AuthSlice.CredentialsPatch(p.email, p.newPassword, hash, now);
            (patch.passwordHash.Some? <==> password != "")
            && (patch.passwordHash.Some? ==> patch.passwordHash.value == hash(password)
                                             && |password| >= 6 && password == confirm)
  {
  }
}
