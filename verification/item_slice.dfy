/**
 * `src/features/itemSlice.ts`: the legacy items store. Its thunks have no `catch` and
 * the slice handles only their fulfilled cases, which update `{items, loading, error}`
 * in place; pending and rejected actions match no case and change nothing.
 */
module ItemSlice {
  import opened Wrappers
  import Seqs

  datatype Status = Pending | Purchased | OutOfStock

  /** `Item`, the legacy item record. */
  datatype Item = Item(
    id: string, name: string, quantity: int, notes: Option<string>,
    category: string, status: Status, image: Option<string>,
    dateAdded: string, userId: string, listId: string)

  function ItemIdOf(i: Item): string { i.id }

  /**
   * `fetchItems`, `addItem` and `updateItem`: each settles with the body of its one
   * request, and with no payload when the request throws.
   */
  function Request<T>(reply: Reply<T>): (r: Settled<T>)
    ensures r.Fulfilled? <==> reply.Reply?
    ensures r.Fulfilled? ==> r.value == reply.body
    ensures r.Rejected? ==> r.payload == None
  {
    Settle(reply, None)
  }

  /** `deleteItem(id)`: settles with the id once the DELETE succeeds. */
  function DeleteItem(id: string, reply: Reply<()>): (r: Settled<string>)
    ensures r.Fulfilled? <==> reply.Reply?
    ensures r.Fulfilled? ==> r.value == id
  {
    Resolve(reply, id)
  }

  /** What a successful update leaves: the first item with the payload's id replaced by it. */
  function Updated(items: seq<Item>, item: Item): (r: seq<Item>)
    ensures |r| == |items|
    ensures (forall i :: i in items ==> i.id != item.id) ==> r == items
    ensures (exists i :: i in items && i.id == item.id) ==> item in r
    ensures forall i :: i in r && i != item ==> i in items
    ensures forall j :: 0 <= j < |items| ==>
              r[j] == if j == Seqs.IndexOf(items, ItemIdOf, item.id) then item else items[j]
  {
    Seqs.ReplaceFirst(items, ItemIdOf, item)
  }

  /** What a successful delete leaves: every item with another id. */
  function Deleted(items: seq<Item>, id: string): (r: seq<Item>)
    ensures forall i :: i in r <==> i in items && i.id != id
    ensures forall i :: multiset(r)[i] == if i.id != id then multiset(items)[i] else 0
    ensures Seqs.Subseq(r, items)
  {
    Seqs.RemoveKey(items, ItemIdOf, id)
  }

  /** An update keeps the ids of the items, in order: it never adds, drops or moves one. */
  lemma UpdateKeepsIds(items: seq<Item>, item: Item)
    ensures Seqs.Map(Updated(items, item), ItemIdOf) == Seqs.Map(items, ItemIdOf)
  {
    Seqs.ReplaceFirstKeepsKeys(items, ItemIdOf, item);
  }

  /** Deleting an item after updating it is deleting it. */
  lemma DeleteAfterUpdate(items: seq<Item>, item: Item)
    ensures Deleted(Updated(items, item), item.id) == Deleted(items, item.id)
  {
    Seqs.RemoveAfterReplace(items, ItemIdOf, item);
  }

  /** Deleting an item that was just added, under an id no other item has, undoes the add. */
  lemma DeleteUndoesAdd(items: seq<Item>, item: Item)
    requires forall i :: i in items ==> i.id != item.id
    ensures Deleted(items + [item], item.id) == items
  {
    Seqs.RemoveAppended(items, ItemIdOf, item);
  }

  /** The items store. */
  class ItemStore {
    var items: seq<Item>
    var loading: bool
    var error: Option<string>

    /** `initialState`. */
    constructor ()
      ensures items == [] && !loading && error == None
    {
      items, loading, error := [], false, None;
    }

    /** `fetchItems` settled: a success replaces the items and clears `loading`. */
    method OnFetchSettled(outcome: Settled<seq<Item>>)
      modifies this
      ensures outcome.Fulfilled? ==> items == outcome.value && !loading
      ensures outcome.Rejected? ==> items == old(items) && loading == old(loading)
      ensures error == old(error)
    {
      if outcome.Fulfilled? {
        items := outcome.value;
        loading := false;
      }
    }

    /** `addItem` settled: a success appends the item at the end. */
    method OnAddSettled(outcome: Settled<Item>)
      modifies this
      ensures outcome.Fulfilled? ==> items == old(items) + [outcome.value]
      ensures outcome.Rejected? ==> items == old(items)
      ensures loading == old(loading) && error == old(error)
    {
      if outcome.Fulfilled? {
        items := items + [outcome.value];
      }
    }

    /** `updateItem` settled: a success replaces the item with the same id, if there is one. */
    method OnUpdateSettled(outcome: Settled<Item>)
      modifies this
      ensures outcome.Fulfilled? ==> items == Updated(old(items), outcome.value)
      ensures outcome.Rejected? ==> items == old(items)
      ensures loading == old(loading) && error == old(error)
    {
      if outcome.Fulfilled? {
        items := Updated(items, outcome.value);
      }
    }

    /** `deleteItem` settled: a success drops every item with that id. */
    method OnDeleteSettled(outcome: Settled<string>)
      modifies this
      ensures outcome.Fulfilled? ==> items == Deleted(old(items), outcome.value)
      ensures outcome.Rejected? ==> items == old(items)
      ensures loading == old(loading) && error == old(error)
    {
      if outcome.Fulfilled? {
        items := Deleted(items, outcome.value);
      }
    }
  }
}
