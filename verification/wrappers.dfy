/** Small value wrappers shared by every module of the model. */
module Wrappers {

  /** A value that may be absent: TypeScript's `T | null` / `T | undefined`. */
  datatype Option<T> = None | Some(value: T)

  /**
   * The reply of one round trip to the REST backend: either the response body,
   * or a thrown error (network failure, non-2xx status).
   */
  datatype Reply<T> = Reply(body: T) | NetworkError

  /**
   * How an async thunk settles, as the reducers see it: the fulfilled payload, or
   * the rejected payload (`rejectWithValue(..)`; `None` when the thunk threw without one).
   */
  datatype Settled<T> = Fulfilled(value: T) | Rejected(payload: Option<string>)

  /** JavaScript truthiness of an optional string: null, undefined and "" are falsy. */
  predicate Truthy(s: Option<string>) {
    s.Some? && s.value != ""
  }

  /**
   * `String(payload || fallback)`: the message a rejected case stores.
   */
  function ErrorText(payload: Option<string>, fallback: string): (e: string)
    ensures Truthy(payload) ==> e == payload.value
    ensures !Truthy(payload) ==> e == fallback
  {
    if Truthy(payload) then payload.value else fallback
  }

  /**
   * How a thunk whose body is one remote call settles: with the reply's body, or, when
   * the call throws, with `payload` (`rejectWithValue(msg)` in a `catch`, or nothing
   * when the thunk has no `catch`).
   */
  function Settle<T>(reply: Reply<T>, payload: Option<string>): (r: Settled<T>)
    ensures r.Fulfilled? <==> reply.Reply?
    ensures r.Fulfilled? ==> r.value == reply.body
    ensures r.Rejected? ==> r.payload == payload
  {
    match reply
    case Reply(body) => Fulfilled(body)
    case NetworkError => Rejected(payload)
  }

  /** How `async (v) => { await call; return v }`, which has no `catch`, settles. */
  function Resolve<T>(reply: Reply<()>, v: T): (r: Settled<T>)
    ensures r.Fulfilled? <==> reply.Reply?
    ensures r.Fulfilled? ==> r.value == v
    ensures r.Rejected? ==> r.payload == None
  {
    if reply.Reply? then Fulfilled(v) else Rejected(None)
  }
}
