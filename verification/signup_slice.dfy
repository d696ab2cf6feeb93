/**
 * `src/features/signupSlice.ts`: the legacy registration store. `registerUser` looks
 * up the email, then the phone, and posts the form only when both lookups come back
 * empty; the reducer cases update `{user, loading, error, success}` in place.
 */
module SignupSlice {
  import opened Wrappers

  /** `RegisterFormData`, the form as posted (its empty `shoppingLists` is left out). */
  datatype SignupData = SignupData(name: string, surname: string, email: string, phone: string,
                                   password: string, cpassword: string)

  /** A request to the backend, in the order the registration makes them. */
  datatype Request = LookupEmail | LookupPhone | PostUser

  const EmailTaken := "Email is already registered!"
  const PhoneTaken := "Phone number is already registered!"
  const RegistrationFailed := "Registration failed. Please try again."

  /** What a registration did: the requests it made, in order, and how it settled. */
  datatype SignupRun = SignupRun(requests: seq<Request>, outcome: Settled<SignupData>)

  /**
   * `registerUser(data)`. `emailMatches` and `phoneMatches` are the replies to the two
   * lookups (the number of users found); `post` is the reply to the POST.
   */
  function RegisterUser(emailMatches: Reply<nat>, phoneMatches: Reply<nat>, post: Reply<SignupData>): (run: SignupRun)
    ensures run.requests in [[LookupEmail], [LookupEmail, LookupPhone], [LookupEmail, LookupPhone, PostUser]]
    ensures LookupPhone in run.requests <==> emailMatches == Reply(0)
    ensures PostUser in run.requests <==> emailMatches == Reply(0) && phoneMatches == Reply(0)
    ensures run.outcome.Fulfilled? <==> PostUser in run.requests && post.Reply?
    ensures run.outcome.Fulfilled? ==> run.outcome.value == post.body
    ensures emailMatches.Reply? && emailMatches.body > 0 ==> run.outcome == Rejected(Some(EmailTaken))
    ensures emailMatches == Reply(0) && phoneMatches.Reply? && phoneMatches.body > 0 ==> run.outcome == Rejected(Some(PhoneTaken))
    ensures run.outcome.Rejected? ==> run.outcome.payload.Some? && run.outcome.payload.value in {EmailTaken, PhoneTaken, RegistrationFailed}
    ensures run.outcome == Rejected(Some(RegistrationFailed)) <==>
              || emailMatches.NetworkError?
              || (emailMatches == Reply(0) && phoneMatches.NetworkError?)
              || (emailMatches == Reply(0) && phoneMatches == Reply(0) && post.NetworkError?)
  {
    match emailMatches
    case NetworkError => SignupRun([LookupEmail], Rejected(Some(RegistrationFailed)))
    case Reply(n) =>
      if n > 0 then SignupRun([LookupEmail], Rejected(Some(EmailTaken)))
      else match phoneMatches
        case NetworkError => SignupRun([LookupEmail, LookupPhone], Rejected(Some(RegistrationFailed)))
        case Reply(m) =>
          if m > 0 then SignupRun([LookupEmail, LookupPhone], Rejected(Some(PhoneTaken)))
          else match post
            case NetworkError => SignupRun([LookupEmail, LookupPhone, PostUser], Rejected(Some(RegistrationFailed)))
            case Reply(created) => SignupRun([LookupEmail, LookupPhone, PostUser], Fulfilled(created))
  }

  /** The registration store. */
  class SignupStore {
    var user: Option<SignupData>
    var loading: bool
    var error: Option<string>
    var success: bool

    /** A successful registration always has its user. */
    ghost predicate SuccessHasUser()
      reads this
    {
      success ==> user.Some?
    }

    /** `initialState`. */
    constructor ()
      ensures user == None && !loading && error == None && !success
      ensures SuccessHasUser()
    {
      user, loading, error, success := None, false, None, false;
    }

    /** `clearState()`. */
    method ClearState()
      modifies this
      ensures user == None && !loading && error == None && !success
      ensures SuccessHasUser()
    {
      user, loading, error, success := None, false, None, false;
    }

    /** The pending case. */
    method OnPending()
      modifies this
      ensures loading && error == None && !success && user == old(user)
      ensures SuccessHasUser()
    {
      loading, error, success := true, None, false;
    }

    /** The fulfilled and rejected cases; a rejection stores its payload as it is, without a default. */
    method OnSettled(outcome: Settled<SignupData>)
      modifies this
      ensures !loading
      ensures outcome.Fulfilled? ==> user == Some(outcome.value) && success && error == old(error)
      ensures outcome.Rejected? ==> error == outcome.payload && !success && user == old(user)
      ensures SuccessHasUser()
    {
      loading := false;
      match outcome {
        case Fulfilled(data) =>
          user := Some(data);
          success := true;
        case Rejected(payload) =>
          error := payload;
          success := false;
      }
    }
  }
}
