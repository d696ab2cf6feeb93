/**
 * `src/features/shoppingListSlice.ts`: the legacy lists store. Lists are fetched in
 * full and filtered by owner on the client; the reducer cases update
 * `{lists, loading, error}` in place.
 */
module ShoppingListSlice {
  import opened Wrappers
  import Seqs

  /** `ShoppingLists`, the legacy list record; `id` is absent until the backend assigns one. */
  datatype ShoppingLists = ShoppingLists(
    id: Option<string>, name: string, category: string, image: string,
    status: string, dateAdded: string, quantity: Option<int>, userId: string)

  const UserNotFound := "User not found.."
  const AddFailed := "Failed to add list"
  const FetchFailed := "Failed to fetch lists"

  function EntryId(l: ShoppingLists): Option<string> { l.id }

  /**
   * The client-side owner filter of `fetchUserLists`. Both sides of the loose `==` are
   * strings, so it compares them as they are.
   */
  function OwnedBy(data: seq<ShoppingLists>, userId: string): (r: seq<ShoppingLists>)
    ensures forall d :: d in r <==> d in data && d.userId == userId
    ensures forall d :: multiset(r)[d] == if d.userId == userId then multiset(data)[d] else 0
    ensures Seqs.Subseq(r, data)
  {
    Seqs.Filter(data, (d: ShoppingLists) => d.userId == userId)
  }

  /** Filtering by the same owner twice is filtering once. */
  lemma OwnedByIdempotent(data: seq<ShoppingLists>, userId: string)
    ensures OwnedBy(OwnedBy(data, userId), userId) == OwnedBy(data, userId)
  {
    Seqs.FilterAll(OwnedBy(data, userId), (d: ShoppingLists) => d.userId == userId);
  }

  /**
   * `fetchUserLists(userId)`. `reply` is the GET of the whole collection, whose body is
   * `None` when it is null: an axios response is always an object, so the `return []`
   * fallback never runs, and calling `filter` on a null body throws, which the `catch`
   * rejects like a failed request. `thrown` is what was thrown, as text.
   */
  function FetchUserLists(userId: string, reply: Reply<Option<seq<ShoppingLists>>>, thrown: Option<string>)
    : (r: Settled<seq<ShoppingLists>>)
    ensures r.Fulfilled? <==> reply.Reply? && reply.body.Some?
    ensures r.Fulfilled? ==> forall d :: d in r.value ==> d.userId == userId
    ensures reply.Reply? && reply.body.Some? ==> r == Fulfilled(OwnedBy(reply.body.value, userId))
    ensures r.Rejected? ==> r.payload == Some(ErrorText(thrown, FetchFailed))
    ensures r.Rejected? ==> Truthy(r.payload)
  {
    match reply
    case Reply(Some(data)) => Fulfilled(OwnedBy(data, userId))
    case _ => Rejected(Some(ErrorText(thrown, FetchFailed)))
  }

  /**
   * `addShoppingList(list)`: `post` is the backend's reply to posting a list (`None`
   * for a falsy body); `thrown` is what a failed request threw, as text.
   */
  function AddShoppingList(list: ShoppingLists, post: ShoppingLists -> Reply<Option<ShoppingLists>>,
                           thrown: Option<string>): (r: Settled<ShoppingLists>)
    ensures r.Fulfilled? <==> post(list).Reply? && post(list).body.Some?
    ensures r.Fulfilled? ==> r.value == post(list).body.value
    ensures post(list) == Reply(None) ==> r == Rejected(Some(UserNotFound))
    ensures post(list).NetworkError? ==> r == Rejected(Some(ErrorText(thrown, AddFailed)))
    ensures r.Rejected? ==> Truthy(r.payload)
  {
    match post(list)
    case Reply(None) => Rejected(Some(UserNotFound))
    case Reply(Some(created)) => Fulfilled(created)
    case NetworkError => Rejected(Some(ErrorText(thrown, AddFailed)))
  }

  /** `deleteShoppingList(id)`: settles with the id once the DELETE succeeds; it has no `catch`. */
  function DeleteShoppingList(id: string, reply: Reply<()>): (r: Settled<string>)
    ensures r.Fulfilled? <==> reply.Reply?
    ensures r.Fulfilled? ==> r.value == id
  {
    Resolve(reply, id)
  }

  /** What a successful delete leaves of `lists`: every list with another id, or none. */
  function WithoutList(lists: seq<ShoppingLists>, id: string): (r: seq<ShoppingLists>)
    ensures forall l :: l in r <==> l in lists && l.id != Some(id)
    ensures forall l :: multiset(r)[l] == if l.id != Some(id) then multiset(lists)[l] else 0
    ensures Seqs.Subseq(r, lists)
  {
    Seqs.RemoveKey(lists, EntryId, Some(id))
  }

  /** Deleting a list that was just added, under an id no other list has, undoes the add. */
  lemma DeleteUndoesAdd(lists: seq<ShoppingLists>, added: ShoppingLists, id: string)
    requires added.id == Some(id)
    requires forall l :: l in lists ==> l.id != Some(id)
    ensures WithoutList(lists + [added], id) == lists
  {
    Seqs.RemoveAppended(lists, EntryId, added);
  }

  /** Deleting the same id twice is deleting it once. */
  lemma DeleteIdempotent(lists: seq<ShoppingLists>, id: string)
    ensures WithoutList(WithoutList(lists, id), id) == WithoutList(lists, id)
  {
    Seqs.RemoveKeyIdempotent(lists, EntryId, Some(id));
  }

  /** The lists store. */
  class ShoppingListStore {
    var lists: seq<ShoppingLists>
    var loading: bool
    var error: Option<string>

    /** `initialState`. */
    constructor ()
      ensures lists == [] && !loading && error == None
    {
      lists, loading, error := [], false, None;
    }

    /** `clearError()`: only the error is cleared. */
    method ClearError()
      modifies this
      ensures error == None
      ensures lists == old(lists) && loading == old(loading)
    {
      error := None;
    }

    /** The pending case of `fetchUserLists` and of `addShoppingList`. */
    method OnPending()
      modifies this
      ensures loading && error == None
      ensures lists == old(lists)
    {
      loading, error := true, None;
    }

    /** `fetchUserLists` settled: a success replaces the lists, a failure stores its payload. */
    method OnFetchSettled(outcome: Settled<seq<ShoppingLists>>)
      modifies this
      ensures !loading
      ensures outcome.Fulfilled? ==> lists == outcome.value && error == old(error)
      ensures outcome.Rejected? ==> lists == old(lists) && error == outcome.payload
    {
      loading := false;
      match outcome {
        case Fulfilled(fetched) =>
          lists := fetched;
        case Rejected(payload) =>
          error := payload;
      }
    }

    /** `addShoppingList` settled: a success appends the list, a failure stores its payload. */
    method OnAddSettled(outcome: Settled<ShoppingLists>)
      modifies this
      ensures !loading
      ensures outcome.Fulfilled? ==> lists == old(lists) + [outcome.value] && error == old(error)
      ensures outcome.Rejected? ==> lists == old(lists) && error == outcome.payload
    {
      loading := false;
      match outcome {
        case Fulfilled(added) =>
          lists := lists + [added];
        case Rejected(payload) =>
          error := payload;
      }
    }

    /**
     * `deleteShoppingList` settled: a success drops every list with that id; a failure
     * is only logged, and neither touches `loading` or `error`.
     */
    method OnDeleteSettled(outcome: Settled<string>)
      modifies this
      ensures outcome.Fulfilled? ==> lists == WithoutList(old(lists), outcome.value)
      ensures outcome.Rejected? ==> lists == old(lists)
      ensures loading == old(loading) && error == old(error)
    {
      if outcome.Fulfilled? {
        lists := WithoutList(lists, outcome.value);
      }
    }
  }
}
