/**
 * `src/features/profileSlice.ts`: the legacy user store. Each of its three thunks is
 * one request whose `catch` rejects with the server's message or a default; the
 * reducer cases update `{user, loading, error}` in place.
 */
module ProfileSlice {
  import opened Wrappers

  /** `User`, the legacy user record; the password is optional. */
  datatype User = User(id: int, name: string, surname: string, email: string,
                       phone: string, password: Option<string>)

  /** The three thunks: `fetchUserProfile`, `updateUserProfile` and `addUser`. */
  datatype ProfileThunk = FetchProfile | UpdateProfile | AddUser

  /** The default the thunk's `catch` rejects with when the server sent no message. */
  function CatchDefault(t: ProfileThunk): (m: string)
    ensures m != ""
    ensures t == FetchProfile <==> m == "Error fetching user"
    ensures t == UpdateProfile <==> m == "Error updating user"
    ensures t == AddUser <==> m == "Error adding user"
  {
    match t
    case FetchProfile => "Error fetching user"
    case UpdateProfile => "Error updating user"
    case AddUser => "Error adding user"
  }

  /** The default the rejected case stores when its payload is falsy. */
  function ReducerDefault(t: ProfileThunk): (m: string)
    ensures m != "" && m != CatchDefault(t)
    ensures t == FetchProfile <==> m == "Failed to fetch user"
    ensures t == UpdateProfile <==> m == "Failed to update user"
    ensures t == AddUser <==> m == "Failed to add user"
  {
    match t
    case FetchProfile => "Failed to fetch user"
    case UpdateProfile => "Failed to update user"
    case AddUser => "Failed to add user"
  }

  /**
   * How thunk `t` settles: with the body of its request, or, when the request throws,
   * with `err.response?.data?.message` (`serverMessage`) or the thunk's default.
   */
  function Run(t: ProfileThunk, reply: Reply<User>, serverMessage: Option<string>): (r: Settled<User>)
    ensures r.Fulfilled? <==> reply.Reply?
    ensures r.Fulfilled? ==> r.value == reply.body
    ensures r.Rejected? ==> Truthy(r.payload)
    ensures r.Rejected? && Truthy(serverMessage) ==> r.payload == serverMessage
    ensures r.Rejected? && !Truthy(serverMessage) ==> r.payload == Some(CatchDefault(t))
  {
    Settle(reply, Some(ErrorText(serverMessage, CatchDefault(t))))
  }

  /** The message a rejected case stores. */
  function RejectedError(t: ProfileThunk, payload: Option<string>): (e: string)
    ensures e != ""
    ensures Truthy(payload) ==> e == payload.value
    ensures !Truthy(payload) ==> e == ReducerDefault(t)
  {
    ErrorText(payload, ReducerDefault(t))
  }

  /**
   * The thunks always reject with a non-empty message, so the reducers' own defaults
   * are never shown: a failure stores the server's message or the thunk's default.
   */
  lemma ReducerDefaultUnused(t: ProfileThunk, reply: Reply<User>, serverMessage: Option<string>)
    requires reply.NetworkError?
    ensures RejectedError(t, Run(t, reply, serverMessage).payload) == ErrorText(serverMessage, CatchDefault(t))
    ensures serverMessage != Some(ReducerDefault(t)) ==>
              RejectedError(t, Run(t, reply, serverMessage).payload) != ReducerDefault(t)
  {
    var r := Run(t, reply, serverMessage);
    assert Truthy(r.payload);
  }

  /** The user store. */
  class ProfileStore {
    var user: Option<User>
    var loading: bool
    var error: Option<string>

    /** `initialState`. */
    constructor ()
      ensures user == None && !loading && error == None
    {
      user, loading, error := None, false, None;
    }

    /** The pending case of every thunk. */
    method OnPending()
      modifies this
      ensures loading && error == None
      ensures user == old(user)
    {
      loading, error := true, None;
    }

    /**
     * Thunk `t` settled: a success stores the returned user and keeps the error; a
     * failure stores the message and keeps the user.
     */
    method OnSettled(t: ProfileThunk, outcome: Settled<User>)
      modifies this
      ensures !loading
      ensures outcome.Fulfilled? ==> user == Some(outcome.value) && error == old(error)
      ensures outcome.Rejected? ==> user == old(user) && error == Some(RejectedError(t, outcome.payload))
    {
      loading := false;
      match outcome {
        case Fulfilled(u) =>
          user := Some(u);
        case Rejected(payload) =>
          error := Some(RejectedError(t, payload));
      }
    }
  }
}
