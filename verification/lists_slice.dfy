/**
 * `src/features/lists/listsSlice.ts`: the list store. The thunks build the records
 * sent to the backend; the store's reducer cases update `{lists, selectedListId,
 * loading, error}` in place when a thunk settles.
 */
module ListsSlice {
  import opened Wrappers
  import opened Types
  import Text
  import Seqs
  import ListsApi
  import ItemsApi

  const LoadFailed := "Failed to load lists."
  const AddFailed := "Failed to add list."
  const UpdateFailed := "Failed to update list."
  const DeleteFailed := "Failed to delete list."
  const ShareFailed := "Failed to generate share link."

  /** The 64 characters of nanoid's URL-safe alphabet (`A-Za-z0-9_-`), in nanoid's order. */
  const UrlAlphabet := "useandom-26T1983" + "40PX75pxJACKVERY" + "MINDBUSHWOLF_GQZ" + "bfghjklqvwyzrict"

  predicate IsUrlSafe(c: char) {
    ('A' <= c <= 'Z') || ('a' <= c <= 'z') || ('0' <= c <= '9') || c == '_' || c == '-'
  }

  lemma AlphabetUrlSafe()
    ensures |UrlAlphabet| == 64
    ensures forall j :: 0 <= j < 64 ==> IsUrlSafe(UrlAlphabet[j])
  {
  }

  /**
   * `nanoid(size)` from `size` random bytes: character `k` is drawn from the
   * alphabet by the low six bits of byte `size - 1 - k`.
   */
  function NanoId(random: seq<bv8>): (id: string)
    ensures |id| == |random|
    ensures forall k :: 0 <= k < |id| ==> IsUrlSafe(id[k])
  {
    if random == [] then ""
    else
      var c := UrlAlphabet[(random[|random| - 1] & 63) as int];
      assert IsUrlSafe(c) by { AlphabetUrlSafe(); }
      [c] + NanoId(random[..|random| - 1])
  }

  /** The fields a `PATCH /lists/:id` request carries. */
  datatype ListPatch = ListPatch(name: Option<string>, shareToken: Option<string>, updatedAt: string)

  /** The record `addListThunk` posts: trimmed name, one timestamp for both dates, no token. */
  function NewList(id: string, userId: string, name: string, now: string): (l: ShoppingList)
    ensures l.id == id && l.userId == userId
    ensures l.name == Text.Trim(name)
    ensures l.createdAt == now && l.updatedAt == now
    ensures l.shareToken.None?
  {
    ShoppingList(id, userId, Text.Trim(name), now, now, None)
  }

  /** `fetchListsThunk(userId)`: a fulfilled payload holds only lists owned by `userId`. */
  function FetchListsThunk(userId: string, reply: Reply<seq<ShoppingList>>): (r: Settled<seq<ShoppingList>>)
    ensures r.Fulfilled? <==> reply.Reply?
    ensures r.Fulfilled? ==> forall l :: l in r.value <==> l in reply.body && l.userId == userId
    ensures r.Fulfilled? ==> forall l :: multiset(r.value)[l] == if l.userId == userId then multiset(reply.body)[l] else 0
    ensures r.Fulfilled? ==> Seqs.Subseq(r.value, reply.body)
    ensures r.Rejected? ==> r.payload == Some(LoadFailed)
  {
    Settle(ListsApi.FetchListsByUser(reply, userId), Some(LoadFailed))
  }

  /** `addListThunk({userId, name})`: posts `NewList(..)` and settles with the created list. */
  function AddListThunk(userId: string, name: string, id: string, now: string,
                        createList: ShoppingList -> Reply<ShoppingList>): (r: Settled<ShoppingList>)
    ensures r.Fulfilled? <==> createList(NewList(id, userId, name, now)).Reply?
    ensures r.Fulfilled? ==> r.value == createList(NewList(id, userId, name, now)).body
    ensures r.Rejected? ==> r.payload == Some(AddFailed)
  {
    Settle(createList(NewList(id, userId, name, now)), Some(AddFailed))
  }

  /** The patch `updateListThunk` sends: the trimmed name and a fresh `updatedAt`, nothing else. */
  function UpdatePatch(name: string, now: string): (p: ListPatch)
    ensures p.name == Some(Text.Trim(name)) && p.shareToken.None? && p.updatedAt == now
  {
    ListPatch(Some(Text.Trim(name)), None, now)
  }

  /** `updateListThunk({id, name})`. */
  function UpdateListThunk(id: string, name: string, now: string,
                           patchList: (string, ListPatch) -> Reply<ShoppingList>): (r: Settled<ShoppingList>)
    ensures r.Fulfilled? <==> patchList(id, UpdatePatch(name, now)).Reply?
    ensures r.Fulfilled? ==> r.value == patchList(id, UpdatePatch(name, now)).body
    ensures r.Rejected? ==> r.payload == Some(UpdateFailed)
  {
    Settle(patchList(id, UpdatePatch(name, now)), Some(UpdateFailed))
  }

  /** The patch `shareListThunk` sends: a fresh 12-character token and `updatedAt`, no name. */
  function SharePatch(random: seq<bv8>, now: string): (p: ListPatch)
    requires |random| == 12
    ensures p.shareToken.Some? && |p.shareToken.value| == 12
    ensures forall k :: 0 <= k < 12 ==> IsUrlSafe(p.shareToken.value[k])
    ensures p.name.None? && p.updatedAt == now
  {
    ListPatch(None, Some(NanoId(random)), now)
  }

  /** `shareListThunk({id})`, with the 12 random bytes nanoid draws. */
  function ShareListThunk(id: string, random: seq<bv8>, now: string,
                          patchList: (string, ListPatch) -> Reply<ShoppingList>): (r: Settled<ShoppingList>)
    requires |random| == 12
    ensures r.Fulfilled? <==> patchList(id, SharePatch(random, now)).Reply?
    ensures r.Fulfilled? ==> r.value == patchList(id, SharePatch(random, now)).body
    ensures r.Rejected? ==> r.payload == Some(ShareFailed)
  {
    Settle(patchList(id, SharePatch(random, now)), Some(ShareFailed))
  }

  /** Every item deletion in `ids` succeeds. */
  predicate AllDeleted(ids: seq<string>, deleteItem: string -> bool) {
    forall k :: 0 <= k < |ids| ==> deleteItem(ids[k])
  }

  /**
   * `deleteListThunk({id, alsoDeleteItems})`: optionally fetch the list's item ids and
   * delete each item, then delete the list; any failure rejects. The item deletions
   * run in parallel in the source; here only their joint outcome matters.
   */
  function DeleteListThunk(id: string, alsoDeleteItems: bool,
                           itemsReply: Reply<seq<ShoppingItem>>,
                           deleteItem: string -> bool, deleteList: bool): (r: Settled<string>)
    ensures r.Fulfilled? <==>
              && (alsoDeleteItems ==> itemsReply.Reply? && AllDeleted(ItemsApi.FetchItemIdsForList(itemsReply).body, deleteItem))
              && deleteList
    ensures r.Fulfilled? ==> r.value == id
    ensures r.Rejected? ==> r.payload == Some(DeleteFailed)
  {
    var itemsGone :=
      if !alsoDeleteItems then true
      else match ItemsApi.FetchItemIdsForList(itemsReply)
        case NetworkError => false
        case Reply(ids) => AllDeleted(ids, deleteItem);
    if itemsGone && deleteList then Fulfilled(id) else Rejected(Some(DeleteFailed))
  }

  /**
   * The selection after a fetch stored `lists`: a falsy selection becomes the first
   * list's id, and a selection no longer among the lists becomes the first list's id,
   * or null when there are no lists.
   */
  function FetchSelection(sel: Option<string>, lists: seq<ShoppingList>): (r: Option<string>)
    ensures lists != [] ==> r.Some? && HasListId(lists, r.value)
    ensures lists == [] ==> r == (if sel == Some("") then sel else None)
    ensures Truthy(sel) && HasListId(lists, sel.value) ==> r == sel
    ensures lists != [] && !(Truthy(sel) && HasListId(lists, sel.value)) ==> r == Some(lists[0].id)
  {
    var first := if lists != [] then Some(lists[0].id) else None;
    var s1 := if !Truthy(sel) && lists != [] then first else sel;
    if Truthy(s1) && Seqs.IndexOf(lists, ListId, s1.value) == -1 then first else s1
  }

  /** Storing the same fetch result again does not move the selection. */
  lemma FetchSelectionIdempotent(sel: Option<string>, lists: seq<ShoppingList>)
    ensures FetchSelection(FetchSelection(sel, lists), lists) == FetchSelection(sel, lists)
  {
    var r := FetchSelection(sel, lists);
    if lists != [] && r == Some("") {
      if Truthy(sel) {
        assert Seqs.IndexOf(lists, ListId, sel.value) == -1;
      }
    }
  }

  /** The lists and selection after the list `id` was deleted. */
  function AfterDelete(lists: seq<ShoppingList>, sel: Option<string>, id: string): (r: (seq<ShoppingList>, Option<string>))
    ensures r.0 == Seqs.RemoveKey(lists, ListId, id)
    ensures sel == Some(id) ==> r.1 == Seqs.First(Seqs.Map(r.0, ListId))
    ensures sel != Some(id) ==> r.1 == sel
  {
    var rest := Seqs.RemoveKey(lists, ListId, id);
    (rest, if sel == Some(id) then (if rest != [] then Some(rest[0].id) else None) else sel)
  }

  /**
   * After a delete no list with that id is left, the others keep their order, and the
   * selection never names the deleted list.
   */
  lemma AfterDeleteRemoves(lists: seq<ShoppingList>, sel: Option<string>, id: string)
    ensures forall l :: l in AfterDelete(lists, sel, id).0 <==> l in lists && l.id != id
    ensures Seqs.Subseq(AfterDelete(lists, sel, id).0, lists)
    ensures AfterDelete(lists, sel, id).1 != Some(id)
  {
    var rest := AfterDelete(lists, sel, id).0;
    if sel == Some(id) && rest != [] {
      assert rest[0] in rest;
    }
  }

  /** Deleting the same list twice has the effect of deleting it once. */
  lemma AfterDeleteIdempotent(lists: seq<ShoppingList>, sel: Option<string>, id: string)
    ensures var once := AfterDelete(lists, sel, id);
            AfterDelete(once.0, once.1, id) == once
  {
    Seqs.RemoveKeyIdempotent(lists, ListId, id);
    AfterDeleteRemoves(lists, sel, id);
  }

  /** Replacing an entry by its own id keeps the set of ids. */
  lemma ReplaceKeepsIds(lists: seq<ShoppingList>, l: ShoppingList, id: string)
    ensures HasListId(Seqs.ReplaceFirst(lists, ListId, l), id) <==> HasListId(lists, id)
  {
    var r := Seqs.ReplaceFirst(lists, ListId, l);
    var i := Seqs.IndexOf(lists, ListId, l.id);
    if HasListId(lists, id) {
      var x :| x in lists && x.id == id;
      var j :| 0 <= j < |lists| && lists[j] == x;
      if j == i { assert r[i].id == id; assert r[i] in r; } else { assert r[j] == x; }
    }
    if HasListId(r, id) {
      var x :| x in r && x.id == id;
      var j :| 0 <= j < |r| && r[j] == x;
      if j == i { assert lists[i].id == id; assert lists[i] in lists; } else { assert lists[j] == x; }
    }
  }

  /**
   * The list store. Update, delete and share have no pending or rejected case, so
   * those actions leave every field as it is: their `..Settled` methods do nothing
   * on a rejection, and no method stands for their pending action.
   */
  class ListsStore {
    var lists: seq<ShoppingList>
    var selectedListId: Option<string>
    var loading: bool
    var error: Option<string>

    /** A truthy selection names a list of the store. */
    ghost predicate SelectionInLists()
      reads this
    {
      Truthy(selectedListId) ==> HasListId(lists, selectedListId.value)
    }

    /** `initialState`. */
    constructor ()
      ensures lists == [] && selectedListId == None && !loading && error == None
      ensures SelectionInLists()
    {
      lists, selectedListId, loading, error := [], None, false, None;
    }

    /** `selectList(id)`. */
    method SelectList(id: Option<string>)
      modifies this
      ensures selectedListId == id
      ensures lists == old(lists) && loading == old(loading) && error == old(error)
    {
      selectedListId := id;
    }

    /** `clearListsState()`. */
    method ClearListsState()
      modifies this
      ensures lists == [] && selectedListId == None && !loading && error == None
      ensures SelectionInLists()
    {
      lists, selectedListId, loading, error := [], None, false, None;
    }

    /** The pending case of `fetchListsThunk` and of `addListThunk`. */
    method OnPending()
      modifies this
      ensures loading && error == None
      ensures lists == old(lists) && selectedListId == old(selectedListId)
    {
      loading := true;
      error := None;
    }

    /** `fetchListsThunk` settled: store the lists and reconcile the selection, or record the error. */
    method OnFetchSettled(outcome: Settled<seq<ShoppingList>>)
      modifies this
      ensures !loading
      ensures outcome.Fulfilled? ==> lists == outcome.value && error == old(error)
      ensures outcome.Fulfilled? ==> selectedListId == FetchSelection(old(selectedListId), outcome.value)
      ensures outcome.Fulfilled? ==> SelectionInLists()
      ensures outcome.Rejected? ==> error == Some(ErrorText(outcome.payload, LoadFailed))
      ensures outcome.Rejected? ==> lists == old(lists) && selectedListId == old(selectedListId)
    {
      loading := false;
      match outcome {
        case Fulfilled(fetched) =>
          lists := fetched;
          if !Truthy(selectedListId) && |lists| > 0 {
            selectedListId := Some(lists[0].id);
          }
          if Truthy(selectedListId) && Seqs.IndexOf(lists, ListId, selectedListId.value) == -1 {
            selectedListId := if |lists| > 0 then Some(lists[0].id) else None;
          }
        case Rejected(payload) =>
          error := Some(ErrorText(payload, LoadFailed));
      }
    }

    /** `addListThunk` settled: the new list goes first and becomes selected, or record the error. */
    method OnAddSettled(outcome: Settled<ShoppingList>)
      modifies this
      ensures !loading
      ensures outcome.Fulfilled? ==> lists == [outcome.value] + old(lists)
      ensures outcome.Fulfilled? ==> selectedListId == Some(outcome.value.id) && error == old(error)
      ensures outcome.Fulfilled? ==> SelectionInLists()
      ensures outcome.Rejected? ==> error == Some(ErrorText(outcome.payload, AddFailed))
      ensures outcome.Rejected? ==> lists == old(lists) && selectedListId == old(selectedListId)
    {
      loading := false;
      match outcome {
        case Fulfilled(created) =>
          lists := [created] + lists;
          selectedListId := Some(created.id);
          assert created in lists;
        case Rejected(payload) =>
          error := Some(ErrorText(payload, AddFailed));
      }
    }

    /**
     * `updateListThunk` or `shareListThunk` settled: on success the entry with the
     * returned list's id is replaced by it; nothing else changes.
     */
    method OnReplaceSettled(outcome: Settled<ShoppingList>)
      modifies this
      ensures outcome.Fulfilled? ==> lists == Seqs.ReplaceFirst(old(lists), ListId, outcome.value)
      ensures outcome.Rejected? ==> lists == old(lists)
      ensures selectedListId == old(selectedListId) && loading == old(loading) && error == old(error)
      ensures old(SelectionInLists()) ==> SelectionInLists()
    {
      if outcome.Fulfilled? {
        var idx := Seqs.IndexOf(lists, ListId, outcome.value.id);
        if idx >= 0 {
          lists := lists[idx := outcome.value];
        }
        if Truthy(selectedListId) {
          ReplaceKeepsIds(old(lists), outcome.value, selectedListId.value);
        }
      }
    }

    /** `deleteListThunk` settled: on success drop the list and reselect if it was selected. */
    method OnDeleteSettled(outcome: Settled<string>)
      modifies this
      ensures outcome.Fulfilled? ==> (lists, selectedListId) == AfterDelete(old(lists), old(selectedListId), outcome.value)
      ensures outcome.Rejected? ==> lists == old(lists) && selectedListId == old(selectedListId)
      ensures loading == old(loading) && error == old(error)
      ensures old(SelectionInLists()) ==> SelectionInLists()
    {
      if outcome.Fulfilled? {
        var deletedId := outcome.value;
        lists := Seqs.RemoveKey(lists, ListId, deletedId);
        if selectedListId == Some(deletedId) {
          selectedListId := if |lists| > 0 then Some(lists[0].id) else None;
          if |lists| > 0 {
            assert lists[0] in lists;
          }
        }
      }
    }

    /** `selectSelectedList`: the selected list, or null without a truthy selection or a match. */
    function SelectedList(): (r: Option<ShoppingList>)
      reads this
      ensures r.Some? ==> Truthy(selectedListId) && r.value in lists && r.value.id == selectedListId.value
      ensures r.None? <==> !Truthy(selectedListId) || !HasListId(lists, selectedListId.value)
      ensures r.Some? ==> r.value == lists[Seqs.IndexOf(lists, ListId, selectedListId.value)]
    {
      if !Truthy(selectedListId) then None
      else
        var i := Seqs.IndexOf(lists, ListId, selectedListId.value);
        if i == -1 then None else Some(lists[i])
    }
  }
}
