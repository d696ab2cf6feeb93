/**
 * `src/features/items/itemsSlice.ts`: the item store of the active list. The thunks
 * normalise what they send; the reducer cases update `{items, loading, error,
 * activeListId}` in place.
 */
module ItemsSlice {
  import opened Wrappers
  import opened Types
  import Text
  import Seqs
  import ItemsApi

  const LoadFailed := "Failed to load items."
  const AddFailed := "Failed to add item."
  const UpdateFailed := "Failed to update item."
  const DeleteFailed := "Failed to delete item."
  const DefaultCategory := "Other"

  /** The payload of a fulfilled fetch: the list asked for and its items. */
  datatype ItemsPage = ItemsPage(listId: string, items: seq<ShoppingItem>)

  /** Every item of the page belongs to the page's list. */
  predicate PageConsistent(page: ItemsPage) {
    forall i :: i in page.items ==> i.listId == page.listId
  }

  /** The editable fields of an item; an absent field is not sent. */
  datatype ItemPatch = ItemPatch(name: Option<string>, quantity: Option<int>, notes: Option<string>,
                                 category: Option<string>, imageUrl: Option<string>)

  /** An item patch as sent, stamped with `updatedAt`. */
  datatype SentPatch = SentPatch(fields: ItemPatch, updatedAt: string)

  /** `x.trim() || fallback`. */
  function TrimOr(s: string, fallback: string): (r: string)
    ensures Text.IsBlank(s) ==> r == fallback
    ensures !Text.IsBlank(s) ==> r == Text.Trim(s) && r != ""
  {
    var t := Text.Trim(s);
    if t == "" then fallback else t
  }

  /** `x?.trim() || ""` on an optional text: always present, trimmed. */
  function OptionalText(s: Option<string>): (r: Option<string>)
    ensures r.Some?
    ensures s.None? ==> r.value == ""
    ensures s.Some? ==> r.value == Text.Trim(s.value)
  {
    match s
    case None => Some("")
    case Some(v) => Some(TrimOr(v, ""))
  }

  /**
   * The record `addItemThunk` posts: trimmed name, a non-empty category defaulting to
   * "Other", notes and image URL always present and trimmed, one timestamp for both dates.
   */
  function NewItem(id: string, userId: string, listId: string, name: string, quantity: int,
                   category: string, notes: Option<string>, imageUrl: Option<string>, now: string): (i: ShoppingItem)
    ensures i.id == id && i.userId == userId && i.listId == listId
    ensures i.name == Text.Trim(name) && i.quantity == quantity
    ensures i.category != ""
    ensures !Text.IsBlank(category) ==> i.category == Text.Trim(category)
    ensures Text.IsBlank(category) ==> i.category == DefaultCategory
    ensures i.notes.Some? && i.imageUrl.Some?
    ensures notes.Some? ==> i.notes.value == Text.Trim(notes.value)
    ensures imageUrl.Some? ==> i.imageUrl.value == Text.Trim(imageUrl.value)
    ensures i.createdAt == now && i.updatedAt == now
  {
    ShoppingItem(id, listId, userId, Text.Trim(name), quantity, OptionalText(notes),
                 TrimOr(category, DefaultCategory), OptionalText(imageUrl), now, now)
  }

  /** `fetchItemsThunk({listId})`: a fulfilled page names `listId` and holds only its items. */
  function FetchItemsThunk(listId: string, reply: Reply<seq<ShoppingItem>>): (r: Settled<ItemsPage>)
    ensures r.Fulfilled? <==> reply.Reply?
    ensures r.Fulfilled? ==> r.value.listId == listId && PageConsistent(r.value)
    ensures r.Fulfilled? ==> forall i :: i in r.value.items <==> i in reply.body && i.listId == listId
    ensures r.Fulfilled? ==> forall i :: multiset(r.value.items)[i] == if i.listId == listId then multiset(reply.body)[i] else 0
    ensures r.Fulfilled? ==> Seqs.Subseq(r.value.items, reply.body)
    ensures r.Rejected? ==> r.payload == Some(LoadFailed)
  {
    match ItemsApi.FetchItemsByList(reply, listId)
    case Reply(items) => Fulfilled(ItemsPage(listId, items))
    case NetworkError => Rejected(Some(LoadFailed))
  }

  /** `addItemThunk(..)`: posts `NewItem(..)` and settles with the created item. */
  function AddItemThunk(id: string, userId: string, listId: string, name: string, quantity: int,
                        category: string, notes: Option<string>, imageUrl: Option<string>, now: string,
                        createItem: ShoppingItem -> Reply<ShoppingItem>): (r: Settled<ShoppingItem>)
    ensures var sent := NewItem(id, userId, listId, name, quantity, category, notes, imageUrl, now);
            (r.Fulfilled? <==> createItem(sent).Reply?) && (r.Fulfilled? ==> r.value == createItem(sent).body)
    ensures r.Rejected? ==> r.payload == Some(AddFailed)
  {
    Settle(createItem(NewItem(id, userId, listId, name, quantity, category, notes, imageUrl, now)), Some(AddFailed))
  }

  /**
   * The patch `updateItemThunk` sends: every text field present in `patch` is trimmed,
   * the quantity is kept, absent fields stay absent, and `updatedAt` is stamped.
   */
  method NormalisePatch(patch: ItemPatch, now: string) returns (safe: SentPatch)
    ensures safe.updatedAt == now
    ensures safe.fields.name.Some? <==> patch.name.Some?
    ensures safe.fields.name.Some? ==> safe.fields.name.value == Text.Trim(patch.name.value)
    ensures safe.fields.category.Some? <==> patch.category.Some?
    ensures safe.fields.category.Some? ==> safe.fields.category.value == Text.Trim(patch.category.value)
    ensures safe.fields.notes.Some? <==> patch.notes.Some?
    ensures safe.fields.notes.Some? ==> safe.fields.notes.value == Text.Trim(patch.notes.value)
    ensures safe.fields.imageUrl.Some? <==> patch.imageUrl.Some?
    ensures safe.fields.imageUrl.Some? ==> safe.fields.imageUrl.value == Text.Trim(patch.imageUrl.value)
    ensures safe.fields.quantity == patch.quantity
  {
    var fields := patch;
    if fields.name.Some? {
      fields := fields.(name := Some(Text.Trim(fields.name.value)));
    }
    if fields.category.Some? {
      fields := fields.(category := Some(Text.Trim(fields.category.value)));
    }
    if fields.notes.Some? {
      fields := fields.(notes := Some(Text.Trim(fields.notes.value)));
    }
    if fields.imageUrl.Some? {
      fields := fields.(imageUrl := Some(Text.Trim(fields.imageUrl.value)));
    }
    safe := SentPatch(fields, now);
  }

  /** `updateItemThunk({id, patch})`: sends the normalised patch and settles with the stored item. */
  method UpdateItemThunk(id: string, patch: ItemPatch, now: string,
                         patchItem: (string, SentPatch) -> Reply<ShoppingItem>)
    returns (sent: SentPatch, r: Settled<ShoppingItem>)
    ensures sent.updatedAt == now && sent.fields.quantity == patch.quantity
    ensures sent.fields.name.Some? <==> patch.name.Some?
    ensures sent.fields.name.Some? ==> sent.fields.name.value == Text.Trim(patch.name.value)
    ensures sent.fields.category.Some? <==> patch.category.Some?
    ensures sent.fields.category.Some? ==> sent.fields.category.value == Text.Trim(patch.category.value)
    ensures sent.fields.notes.Some? <==> patch.notes.Some?
    ensures sent.fields.notes.Some? ==> sent.fields.notes.value == Text.Trim(patch.notes.value)
    ensures sent.fields.imageUrl.Some? <==> patch.imageUrl.Some?
    ensures sent.fields.imageUrl.Some? ==> sent.fields.imageUrl.value == Text.Trim(patch.imageUrl.value)
    ensures r.Fulfilled? <==> patchItem(id, sent).Reply?
    ensures r.Fulfilled? ==> r.value == patchItem(id, sent).body
    ensures r.Rejected? ==> r.payload == Some(UpdateFailed)
  {
    sent := NormalisePatch(patch, now);
    r := Settle(patchItem(id, sent), Some(UpdateFailed));
  }

  /** `deleteItemThunk({id})`: settles with the id when the backend deletion succeeds. */
  function DeleteItemThunk(id: string, deleted: bool): (r: Settled<string>)
    ensures r.Fulfilled? <==> deleted
    ensures r.Fulfilled? ==> r.value == id
    ensures r.Rejected? ==> r.payload == Some(DeleteFailed)
  {
    if deleted then Fulfilled(id) else Rejected(Some(DeleteFailed))
  }

  /** Whether a created item is shown: always without a truthy active list, else only its own. */
  predicate Admits(activeListId: Option<string>, item: ShoppingItem) {
    !Truthy(activeListId) || item.listId == activeListId.value
  }

  /** A repeated delete of the same id finds nothing more to remove. */
  lemma DeleteIdempotent(items: seq<ShoppingItem>, id: string)
    ensures Seqs.RemoveKey(Seqs.RemoveKey(items, ItemId, id), ItemId, id) == Seqs.RemoveKey(items, ItemId, id)
  {
    Seqs.RemoveKeyIdempotent(items, ItemId, id);
  }

  /** An update replaces an item by one with the same id, so the ids, in order, are those before it. */
  lemma UpdateKeepsIds(items: seq<ShoppingItem>, item: ShoppingItem)
    ensures Seqs.Map(Seqs.ReplaceFirst(items, ItemId, item), ItemId) == Seqs.Map(items, ItemId)
  {
    Seqs.ReplaceFirstKeepsKeys(items, ItemId, item);
  }

  /** The item store. Update and delete have no pending or rejected case. */
  class ItemsStore {
    var items: seq<ShoppingItem>
    var loading: bool
    var error: Option<string>
    var activeListId: Option<string>

    /** With a truthy active list, every stored item belongs to it. */
    ghost predicate ItemsOfActiveList()
      reads this
    {
      Truthy(activeListId) ==> forall i :: i in items ==> i.listId == activeListId.value
    }

    /** `initialState`. */
    constructor ()
      ensures items == [] && !loading && error == None && activeListId == None
      ensures ItemsOfActiveList()
    {
      items, loading, error, activeListId := [], false, None, None;
    }

    /** `clearItemsState()`. */
    method ClearItemsState()
      modifies this
      ensures items == [] && !loading && error == None && activeListId == None
      ensures ItemsOfActiveList()
    {
      items, loading, error, activeListId := [], false, None, None;
    }

    /** `setActiveListId(id)`: changes only the active list; the items stay until the next fetch. */
    method SetActiveListId(id: Option<string>)
      modifies this
      ensures activeListId == id
      ensures items == old(items) && loading == old(loading) && error == old(error)
    {
      activeListId := id;
    }

    /** The pending case of `fetchItemsThunk` and of `addItemThunk`. */
    method OnPending()
      modifies this
      ensures loading && error == None
      ensures items == old(items) && activeListId == old(activeListId)
    {
      loading := true;
      error := None;
    }

    /** `fetchItemsThunk` settled: the page's list becomes active with its items, or record the error. */
    method OnFetchSettled(outcome: Settled<ItemsPage>)
      modifies this
      ensures !loading
      ensures outcome.Fulfilled? ==> items == outcome.value.items && activeListId == Some(outcome.value.listId)
      ensures outcome.Fulfilled? ==> error == old(error)
      ensures outcome.Fulfilled? && PageConsistent(outcome.value) ==> ItemsOfActiveList()
      ensures outcome.Rejected? ==> error == Some(ErrorText(outcome.payload, LoadFailed))
      ensures outcome.Rejected? ==> items == old(items) && activeListId == old(activeListId)
    {
      loading := false;
      match outcome {
        case Fulfilled(page) =>
          activeListId := Some(page.listId);
          items := page.items;
        case Rejected(payload) =>
          error := Some(ErrorText(payload, LoadFailed));
      }
    }

    /** `addItemThunk` settled: the created item goes first if the active list admits it. */
    method OnAddSettled(outcome: Settled<ShoppingItem>)
      modifies this
      ensures !loading && activeListId == old(activeListId)
      ensures outcome.Fulfilled? && Admits(activeListId, outcome.value) ==> items == [outcome.value] + old(items)
      ensures outcome.Fulfilled? && !Admits(activeListId, outcome.value) ==> items == old(items)
      ensures outcome.Fulfilled? ==> error == old(error)
      ensures outcome.Rejected? ==> items == old(items) && error == Some(ErrorText(outcome.payload, AddFailed))
      ensures old(ItemsOfActiveList()) ==> ItemsOfActiveList()
    {
      loading := false;
      match outcome {
        case Fulfilled(created) =>
          if !Truthy(activeListId) || created.listId == activeListId.value {
            items := [created] + items;
          }
        case Rejected(payload) =>
          error := Some(ErrorText(payload, AddFailed));
      }
    }

    /** `updateItemThunk` settled: on success the entry with the returned item's id is replaced. */
    method OnUpdateSettled(outcome: Settled<ShoppingItem>)
      modifies this
      ensures outcome.Fulfilled? ==> items == Seqs.ReplaceFirst(old(items), ItemId, outcome.value)
      ensures outcome.Rejected? ==> items == old(items)
      ensures loading == old(loading) && error == old(error) && activeListId == old(activeListId)
      ensures (old(ItemsOfActiveList()) && (outcome.Fulfilled? ==> Admits(activeListId, outcome.value)))
                ==> ItemsOfActiveList()
    {
      if outcome.Fulfilled? {
        var idx := Seqs.IndexOf(items, ItemId, outcome.value.id);
        if idx >= 0 {
          items := items[idx := outcome.value];
        }
      }
    }

    /** `deleteItemThunk` settled: on success every item with that id is dropped. */
    method OnDeleteSettled(outcome: Settled<string>)
      modifies this
      ensures outcome.Fulfilled? ==> items == Seqs.RemoveKey(old(items), ItemId, outcome.value)
      ensures outcome.Fulfilled? ==> forall i :: i in items <==> i in old(items) && i.id != outcome.value
      ensures outcome.Rejected? ==> items == old(items)
      ensures loading == old(loading) && error == old(error) && activeListId == old(activeListId)
      ensures old(ItemsOfActiveList()) ==> ItemsOfActiveList()
    {
      if outcome.Fulfilled? {
        items := Seqs.RemoveKey(items, ItemId, outcome.value);
      }
    }
  }
}
