/**
 * `src/features/auth/authSlice.ts`: the session store. The thunks decide from the
 * backend's replies; every payload they fulfil with is a `SessionUser`, which has no
 * password hash. The reducer cases update `{user, loading, error}` in place and mirror
 * the user into the persisted session.
 */
module AuthSlice {
  import opened Wrappers
  import opened Types

  const EmailTaken := "Email already registered."
  const InvalidCredentials := "Invalid email or password."
  const ProfileFailed := "Failed to update profile."
  const CredentialsFailed := "Failed to update credentials."
  const RegisterFailed := "Register failed."
  const LoginFailed := "Login failed."

  /** The fields a `PATCH /users/:id` request carries; an absent field is not sent. */
  datatype UserPatch = UserPatch(email: Option<string>, passwordHash: Option<string>, name: Option<string>,
                                 surname: Option<string>, cell: Option<string>, updatedAt: string)

  /** What a registration did: the user record it posted, if any, and how it settled. */
  datatype RegisterRun = RegisterRun(posted: Option<User>, outcome: Settled<SessionUser>)

  /**
   * `registerThunk(..)`. `lookup` is the reply of the email lookup (its first match),
   * `hash` the password hashing, `createUser` the reply to the POST. The thunk has no
   * `catch`, so a failed request rejects without a payload.
   */
  function RegisterThunk(email: string, password: string, name: string, surname: string, cell: string,
                         id: string, now: string, hash: string -> string,
                         lookup: Reply<Option<User>>, createUser: User -> Reply<User>): (r: RegisterRun)
    ensures lookup.NetworkError? ==> r == RegisterRun(None, Rejected(None))
    ensures lookup.Reply? && lookup.body.Some? ==> r == RegisterRun(None, Rejected(Some(EmailTaken)))
    ensures r.posted.Some? <==> lookup == Reply(None)
    ensures r.posted.Some? ==>
              var u := r.posted.value;
              && u.id == id && u.email == email && u.name == name && u.surname == surname && u.cell == cell
              && u.passwordHash == hash(password)
              && u.createdAt == now && u.updatedAt == now
    ensures r.outcome.Fulfilled? <==> r.posted.Some? && createUser(r.posted.value).Reply?
    ensures r.outcome.Fulfilled? ==> r.outcome.value == Strip(createUser(r.posted.value).body)
  {
    match lookup
    case NetworkError => RegisterRun(None, Rejected(None))
    case Reply(existing) =>
      if existing.Some? then RegisterRun(None, Rejected(Some(EmailTaken)))
      else
        var newUser := User(id, email, hash(password), name, surname, cell, now, now);
        match createUser(newUser)
        case NetworkError => RegisterRun(Some(newUser), Rejected(None))
        case Reply(created) => RegisterRun(Some(newUser), Fulfilled(Strip(created)))
  }

  /**
   * `loginThunk({email, password})`: an unknown email and a wrong password reject with
   * the same message, so a caller cannot tell them apart.
   */
  function LoginThunk(password: string, verify: (string, string) -> bool, lookup: Reply<Option<User>>): (r: Settled<SessionUser>)
    ensures r.Fulfilled? <==> lookup.Reply? && lookup.body.Some? && verify(password, lookup.body.value.passwordHash)
    ensures r.Fulfilled? ==> r.value == Strip(lookup.body.value)
    ensures lookup.NetworkError? ==> r == Rejected(None)
    ensures lookup.Reply? && !r.Fulfilled? ==> r == Rejected(Some(InvalidCredentials))
  {
    match lookup
    case NetworkError => Rejected(None)
    case Reply(user) =>
      if user.None? then Rejected(Some(InvalidCredentials))
      else if !verify(password, user.value.passwordHash) then Rejected(Some(InvalidCredentials))
      else Fulfilled(Strip(user.value))
  }

  /** The profile patch: name, surname, cell and `updatedAt`, never the email or the hash. */
  function ProfilePatch(name: string, surname: string, cell: string, now: string): (p: UserPatch)
    ensures p.email.None? && p.passwordHash.None?
    ensures p.name == Some(name) && p.surname == Some(surname) && p.cell == Some(cell) && p.updatedAt == now
  {
    UserPatch(None, None, Some(name), Some(surname), Some(cell), now)
  }

  /** The credentials patch: the email and `updatedAt`, plus a new hash only for a non-empty password. */
  function CredentialsPatch(email: string, newPassword: Option<string>, hash: string -> string, now: string): (p: UserPatch)
    ensures p.email == Some(email) && p.updatedAt == now
    ensures p.name.None? && p.surname.None? && p.cell.None?
    ensures p.passwordHash.Some? <==> Truthy(newPassword)
    ensures p.passwordHash.Some? ==> p.passwordHash.value == hash(newPassword.value)
  {
    UserPatch(Some(email), if Truthy(newPassword) then Some(hash(newPassword.value)) else None, None, None, None, now)
  }

  /** `updateProfileThunk(..)`: sends `ProfilePatch(..)`; the stored user comes back stripped. */
  function UpdateProfileThunk(id: string, name: string, surname: string, cell: string, now: string,
                              updateUser: (string, UserPatch) -> Reply<User>): (r: Settled<SessionUser>)
    ensures r.Fulfilled? <==> updateUser(id, ProfilePatch(name, surname, cell, now)).Reply?
    ensures r.Fulfilled? ==> r.value == Strip(updateUser(id, ProfilePatch(name, surname, cell, now)).body)
    ensures r.Rejected? ==> r.payload == Some(ProfileFailed)
  {
    match updateUser(id, ProfilePatch(name, surname, cell, now))
    case Reply(updated) => Fulfilled(Strip(updated))
    case NetworkError => Rejected(Some(ProfileFailed))
  }

  /** `updateCredentialsThunk(..)`: sends `CredentialsPatch(..)`; the stored user comes back stripped. */
  function UpdateCredentialsThunk(id: string, email: string, newPassword: Option<string>, hash: string -> string,
                                  now: string, updateUser: (string, UserPatch) -> Reply<User>): (r: Settled<SessionUser>)
    ensures r.Fulfilled? <==> updateUser(id, CredentialsPatch(email, newPassword, hash, now)).Reply?
    ensures r.Fulfilled? ==> r.value == Strip(updateUser(id, CredentialsPatch(email, newPassword, hash, now)).body)
    ensures r.Rejected? ==> r.payload == Some(CredentialsFailed)
  {
    match updateUser(id, CredentialsPatch(email, newPassword, hash, now))
    case Reply(updated) => Fulfilled(Strip(updated))
    case NetworkError => Rejected(Some(CredentialsFailed))
  }

  /** The four thunks whose cases the store handles alike. */
  datatype AuthThunk = Register | Login | UpdateProfile | UpdateCredentials

  /** The message a rejected case stores when its payload is falsy. */
  function DefaultError(t: AuthThunk): (m: string)
    ensures m != ""
    ensures t == Register <==> m == RegisterFailed
    ensures t == Login <==> m == LoginFailed
    ensures t == UpdateProfile <==> m == ProfileFailed
    ensures t == UpdateCredentials <==> m == CredentialsFailed
  {
    match t
    case Register => RegisterFailed
    case Login => LoginFailed
    case UpdateProfile => ProfileFailed
    case UpdateCredentials => CredentialsFailed
  }

  /** The session store; `persisted` stands for the `session_user` entry of local storage. */
  class AuthStore {
    var user: Option<SessionUser>
    var loading: bool
    var error: Option<string>
    ghost var persisted: Option<SessionUser>

    /** The persisted session always mirrors the store's user. */
    ghost predicate SessionMirrored()
      reads this
    {
      persisted == user
    }

    /** `initialState`: the user restored from the persisted session, if any. */
    constructor (saved: Option<SessionUser>)
      ensures user == saved && !loading && error == None
      ensures persisted == saved && SessionMirrored()
    {
      user, loading, error := saved, false, None;
      persisted := saved;
    }

    /** The pending case of every thunk. */
    method OnPending(t: AuthThunk)
      modifies this
      ensures loading && error == None
      ensures user == old(user) && persisted == old(persisted)
    {
      loading := true;
      error := None;
    }

    /** The fulfilled and rejected cases of every thunk. */
    method OnSettled(t: AuthThunk, outcome: Settled<SessionUser>)
      modifies this
      ensures !loading
      ensures outcome.Fulfilled? ==> user == Some(outcome.value) && persisted == user && error == old(error)
      ensures outcome.Rejected? ==> error == Some(ErrorText(outcome.payload, DefaultError(t)))
      ensures outcome.Rejected? ==> user == old(user) && persisted == old(persisted)
      ensures old(SessionMirrored()) ==> SessionMirrored()
    {
      loading := false;
      match outcome {
        case Fulfilled(u) =>
          user := Some(u);
          persisted := Some(u);
        case Rejected(payload) =>
          error := Some(ErrorText(payload, DefaultError(t)));
      }
    }

    /** `logout()`: clears the session and its persisted copy. */
    method Logout()
      modifies this
      ensures user == None && !loading && error == None && persisted == None
      ensures SessionMirrored()
    {
      user, loading, error := None, false, None;
      persisted := None;
    }

    /** `clearAuthError()`: only the error changes. */
    method ClearAuthError()
      modifies this
      ensures error == None
      ensures user == old(user) && loading == old(loading) && persisted == old(persisted)
    {
      error := None;
    }
  }
}
