/**
 * `src/components/SignupForm.tsx`: the legacy sign-up form. `handleSubmit` records
 * every failing field in an error map, stops when any was recorded, and otherwise
 * checks for a duplicate email, then a duplicate phone, before posting the form.
 */
module SignupForm {
  import opened Wrappers
  import Text
  import SignupSlice

  type SignupData = SignupSlice.SignupData

  const NameRequired := "First name is required"
  const SurnameRequired := "Surname is required"
  const PhoneRequired := "Phone number is required"
  const EmailRequired := "Email is required"
  const EmailInvalid := "Please enter a valid email"
  const PasswordRequired := "Password is required"
  const PasswordTooShort := "Password must be at least 6 characters"
  const PasswordMismatch := "Passwords do not match"

  /**
   * `/\S+@\S+\.\S+/.test(s)`, which is not anchored: some non-space character, an
   * `@`, a run of at least one non-space character, a `.`, and one more non-space
   * character occur in a row somewhere in `s`. (Each `\S+` may match longer runs, but
   * a match exists exactly when one with the shortest outer runs does.)
   */
  predicate EmailLike(s: string)
    ensures EmailLike(s) ==> |s| >= 5 && '@' in s && '.' in s
  {
    exists a, d :: 0 < a < |s| && 0 < d < |s| && EmailMatchAt(s, a, d)
  }

  /** The shortest match: `s[a - 1]`, the `@` at `a`, the run up to the `.` at `d`, and `s[d + 1]`. */
  predicate EmailMatchAt(s: string, a: int, d: int) {
    && 0 < a && a + 1 < d && d + 1 < |s|
    && !Text.IsSpace(s[a - 1]) && s[a] == '@'
    && (forall k :: a < k < d ==> !Text.IsSpace(s[k]))
    && s[d] == '.' && !Text.IsSpace(s[d + 1])
  }

  /** The pattern is not anchored: text around a match does not undo it. */
  lemma EmailLikeUnanchored(s: string, before: string, after: string)
    requires EmailLike(s)
    ensures EmailLike(before + s + after)
  {
    var t := before + s + after;
    var a, d :| 0 < a < |s| && 0 < d < |s| && EmailMatchAt(s, a, d);
    assert a + 1 < d && d + 1 < |s|;
    var o := |before|;
    assert forall k :: a + o < k < d + o ==> !Text.IsSpace(t[k]) by {
      forall k | a + o < k < d + o ensures !Text.IsSpace(t[k]) {
        assert t[k] == s[k - o];
      }
    }
    assert t[a + o - 1] == s[a - 1] && t[a + o] == s[a] && t[d + o] == s[d] && t[d + o + 1] == s[d + 1];
    assert EmailMatchAt(t, a + o, d + o);
  }

  lemma EmailLikeExamples()
    ensures EmailLike("a@b.c")
    ensures EmailLike("say x@y.z!")
    ensures !EmailLike("a@b")
    ensures !EmailLike("@b.c")
    ensures !EmailLike("a@.c")
  {
    assert EmailMatchAt("a@b.c", 1, 3);
    assert EmailMatchAt("x@y.z", 1, 3);
    EmailLikeUnanchored("x@y.z", "say ", "!");
    assert "say " + "x@y.z" + "!" == "say x@y.z!";
  }

  /** The keys of the error object, one per form field. */
  datatype Field = Name | Surname | Phone | Email | Password | CPassword

  /**
   * The validation of `handleSubmit`: every check runs, each failing field gets its
   * message, and the form is valid exactly when no error was recorded. Name, surname
   * and phone need only be non-empty; whitespace passes.
   */
  method Validate(f: SignupData) returns (isValid: bool, errors: map<Field, string>)
    ensures isValid <==> errors == map[]
    ensures Name in errors <==> f.name == ""
    ensures Surname in errors <==> f.surname == ""
    ensures Phone in errors <==> f.phone == ""
    ensures Email in errors <==> f.email == "" || !EmailLike(f.email)
    ensures Password in errors <==> |f.password| < 6
    ensures CPassword in errors <==> f.cpassword != f.password
    ensures Name in errors ==> errors[Name] == NameRequired
    ensures Surname in errors ==> errors[Surname] == SurnameRequired
    ensures Phone in errors ==> errors[Phone] == PhoneRequired
    ensures Email in errors ==> errors[Email] == if f.email == "" then EmailRequired else EmailInvalid
    ensures Password in errors ==> errors[Password] == if f.password == "" then PasswordRequired else PasswordTooShort
    ensures CPassword in errors ==> errors[CPassword] == PasswordMismatch
  {
    isValid := true;
    errors := map[];
    if f.name == "" {
      isValid := false;
      errors := errors[Name := NameRequired];
    }
    if f.surname == "" {
      isValid := false;
      errors := errors[Surname := SurnameRequired];
    }
    if f.phone == "" {
      isValid := false;
      errors := errors[Phone := PhoneRequired];
    }
    if f.email == "" {
      isValid := false;
      errors := errors[Email := EmailRequired];
    } else if !EmailLike(f.email) {
      isValid := false;
      errors := errors[Email := EmailInvalid];
    }
    if f.password == "" {
      isValid := false;
      errors := errors[Password := PasswordRequired];
    } else if |f.password| < 6 {
      isValid := false;
      errors := errors[Password := PasswordTooShort];
    }
    if f.cpassword != f.password {
      isValid := false;
      errors := errors[CPassword := PasswordMismatch];
    }
    assert !isValid ==> (Name in errors || Surname in errors || Phone in errors ||
                         Email in errors || Password in errors || CPassword in errors);
  }

  const Registered := "Successfully registered \U{1F389}"
  const SomethingWrong := "Something went wrong, please try again."

  /** What a submission did: the requests made, in order, and the alert shown, if any. */
  datatype SubmitRun = SubmitRun(requests: seq<SignupSlice.Request>, alert: Option<string>)

  /**
   * The rest of `handleSubmit` once validation has run: nothing when the form is
   * invalid; otherwise the email lookup, then the phone lookup, then the POST, each only
   * when the one before found nothing. Any failed request shows the generic alert.
   */
  function Submit(isValid: bool, emailMatches: Reply<nat>, phoneMatches: Reply<nat>, posted: bool): (run: SubmitRun)
    ensures !isValid ==> run == SubmitRun([], None)
    ensures SignupSlice.PostUser in run.requests <==> isValid && emailMatches == Reply(0) && phoneMatches == Reply(0)
    ensures run.alert == Some(Registered) <==> SignupSlice.PostUser in run.requests && posted
    ensures isValid && emailMatches.Reply? && emailMatches.body > 0 ==> run.alert == Some(SignupSlice.EmailTaken)
    ensures isValid && emailMatches == Reply(0) && phoneMatches.Reply? && phoneMatches.body > 0 ==>
              run.alert == Some(SignupSlice.PhoneTaken)
    ensures run.alert == Some(SomethingWrong) <==>
              && isValid
              && (|| emailMatches.NetworkError?
                  || (emailMatches == Reply(0) && phoneMatches.NetworkError?)
                  || (emailMatches == Reply(0) && phoneMatches == Reply(0) && !posted))
  {
    if !isValid then SubmitRun([], None)
    else match emailMatches
      case NetworkError => SubmitRun([SignupSlice.LookupEmail], Some(SomethingWrong))
      case Reply(n) =>
        if n > 0 then SubmitRun([SignupSlice.LookupEmail], Some(SignupSlice.EmailTaken))
        else match phoneMatches
          case NetworkError => SubmitRun([SignupSlice.LookupEmail, SignupSlice.LookupPhone], Some(SomethingWrong))
          case Reply(m) =>
            if m > 0 then SubmitRun([SignupSlice.LookupEmail, SignupSlice.LookupPhone], Some(SignupSlice.PhoneTaken))
            else SubmitRun([SignupSlice.LookupEmail, SignupSlice.LookupPhone, SignupSlice.PostUser],
                           Some(if posted then Registered else SomethingWrong))
  }

  /**
   * The form and `registerUser` make the same requests in the same order for the same
   * replies, and the form reports success exactly when the store's thunk fulfils.
   */
  lemma SubmitAgreesWithRegisterUser(emailMatches: Reply<nat>, phoneMatches: Reply<nat>, post: Reply<SignupData>)
    ensures var run := Submit(true, emailMatches, phoneMatches, post.Reply?);
            var thunk := SignupSlice.RegisterUser(emailMatches, phoneMatches, post);
            run.requests == thunk.requests && (run.alert == Some(Registered) <==> thunk.outcome.Fulfilled?)
  {
  }
}
