/**
 * `src/pages/RegisterPage.tsx`: the registration form's `validate`, and the payload
 * `onSubmit` dispatches once it passes.
 */
module RegisterPage {
  import opened Wrappers
  import Text
  import Checks

  datatype RegisterForm = RegisterForm(name: string, surname: string, cell: string, email: string,
                                       password: string, confirmPassword: string)

  const NameRequired := "Name is required."
  const SurnameRequired := "Surname is required."
  const CellRequired := "Cell number is required."
  const EmailRequired := "Email is required."
  const PasswordRequired := "Password is required."
  const PasswordTooShort := "Password must be at least 6 characters."
  const PasswordMismatch := "Passwords do not match."

  /** `validate()`: the message of the first failing check, or null. */
  function Validate(f: RegisterForm): (r: Option<string>)
    ensures r.None? <==>
              && !Text.IsBlank(f.name) && !Text.IsBlank(f.surname) && !Text.IsBlank(f.cell) && !Text.IsBlank(f.email)
              && |f.password| >= 6 && f.password == f.confirmPassword
    ensures r.Some? ==> r.value in [NameRequired, SurnameRequired, CellRequired, EmailRequired,
                                    PasswordRequired, PasswordTooShort, PasswordMismatch]
  {
    if Text.IsBlank(f.name) then Some(NameRequired)
    else if Text.IsBlank(f.surname) then Some(SurnameRequired)
    else if Text.IsBlank(f.cell) then Some(CellRequired)
    else if Text.IsBlank(f.email) then Some(EmailRequired)
    else if f.password == "" then Some(PasswordRequired)
    else if |f.password| < 6 then Some(PasswordTooShort)
    else if f.password != f.confirmPassword then Some(PasswordMismatch)
    else None
  }

  /**
   * The seven checks in order. Name, surname, cell and email must not be blank; the
   * password is checked as typed, untrimmed.
   */
  function RegisterChecks(f: RegisterForm): (cs: seq<Checks.Check>)
    ensures |cs| == 7
  {
    [Checks.Check(!Text.IsBlank(f.name), NameRequired)] + SurnameOnward(f)
  }

  function SurnameOnward(f: RegisterForm): seq<Checks.Check> {
    [Checks.Check(!Text.IsBlank(f.surname), SurnameRequired)] + CellOnward(f)
  }

  function CellOnward(f: RegisterForm): seq<Checks.Check> {
    [Checks.Check(!Text.IsBlank(f.cell), CellRequired)] + EmailOnward(f)
  }

  function EmailOnward(f: RegisterForm): seq<Checks.Check> {
    [Checks.Check(!Text.IsBlank(f.email), EmailRequired)] + PasswordChecks(f)
  }

  /** The password checks run on the password as typed, untrimmed. */
  function PasswordChecks(f: RegisterForm): seq<Checks.Check> {
    [ Checks.Check(f.password != "", PasswordRequired),
      Checks.Check(|f.password| >= 6, PasswordTooShort),
      Checks.Check(f.password == f.confirmPassword, PasswordMismatch) ]
  }

  /** `validate` returns the message of the first failing check, and null exactly when all pass. */
  lemma ValidateIsFirstFailure(f: RegisterForm)
    ensures Validate(f) == Checks.FirstFailure(RegisterChecks(f))
  {
    var p := PasswordChecks(f);
    Checks.FirstFailureCons(p[2], []);
    assert p[2..] == [p[2]] + [];
    Checks.FirstFailureCons(p[1], p[2..]);
    assert p[1..] == [p[1]] + p[2..];
    Checks.FirstFailureCons(p[0], p[1..]);
    assert p == [p[0]] + p[1..];
    Checks.FirstFailureCons(RegisterChecks(f)[0], SurnameOnward(f));
    Checks.FirstFailureCons(SurnameOnward(f)[0], CellOnward(f));
    Checks.FirstFailureCons(CellOnward(f)[0], EmailOnward(f));
    Checks.FirstFailureCons(EmailOnward(f)[0], p);
  }

  /** The payload `registerThunk` receives. */
  datatype RegisterPayload = RegisterPayload(name: string, surname: string, cell: string, email: string, password: string)

  /** What `onSubmit` does: alert the first failure, or dispatch the registration. */
  datatype RegisterSubmit = Alerted(message: string) | Dispatched(payload: RegisterPayload)

  /** `onSubmit`: only a valid form is dispatched; the text fields are trimmed, the password is sent as typed. */
  function OnSubmit(f: RegisterForm): (r: RegisterSubmit)
    ensures r.Alerted? <==> Validate(f).Some?
    ensures r.Alerted? ==> r.message == Validate(f).value
    ensures r.Dispatched? ==> r.payload == RegisterPayload(Text.Trim(f.name), Text.Trim(f.surname), Text.Trim(f.cell),
                                                           Text.Trim(f.email), f.password)
  {
    match Validate(f)
    case Some(msg) => Alerted(msg)
    case None => Dispatched(RegisterPayload(Text.Trim(f.name), Text.Trim(f.surname), Text.Trim(f.cell),
                                            Text.Trim(f.email), f.password))
  }

  /**
   * A dispatched payload has non-empty name, surname, cell and email with no
   * surrounding whitespace, and a password of at least 6 characters equal to its confirmation.
   */
  lemma DispatchedPayloadWellFormed(f: RegisterForm)
    requires OnSubmit(f).Dispatched?
    ensures var p := OnSubmit(f).payload;
            && p.name != "" && p.surname != "" && p.cell != "" && p.email != ""
            && Text.Trim(p.name) == p.name && Text.Trim(p.surname) == p.surname
            && Text.Trim(p.cell) == p.cell && Text.Trim(p.email) == p.email
            && |p.password| >= 6 && p.password == f.confirmPassword
  {
    Text.TrimIdempotent(f.name);
    Text.TrimIdempotent(f.surname);
    Text.TrimIdempotent(f.cell);
    Text.TrimIdempotent(f.email);
  }
}
