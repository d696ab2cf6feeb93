/** `src/features/items/itemsApi.ts`: the client-side work done on `/items` replies. */
module ItemsApi {
  import opened Wrappers
  import opened Types
  import Seqs

  /** `fetchItemsByList(listId)`: `GET /items`, then keep the items of `listId`. */
  function FetchItemsByList(reply: Reply<seq<ShoppingItem>>, listId: string): (r: Reply<seq<ShoppingItem>>)
    ensures r.NetworkError? <==> reply.NetworkError?
    ensures r.Reply? ==> |r.body| <= |reply.body|
    ensures r.Reply? ==> forall i :: i in r.body <==> i in reply.body && i.listId == listId
    ensures r.Reply? ==> forall i :: multiset(r.body)[i] == if i.listId == listId then multiset(reply.body)[i] else 0
    ensures r.Reply? ==> Seqs.Subseq(r.body, reply.body)
  {
    match reply
    case NetworkError => NetworkError
    case Reply(all) => Reply(Seqs.Filter(all, (i: ShoppingItem) => i.listId == listId))
  }

  /** `fetchItemIdsForList(listId)`: the ids of the `?listId=` reply, one per element, in order. */
  function FetchItemIdsForList(reply: Reply<seq<ShoppingItem>>): (r: Reply<seq<string>>)
    ensures r.NetworkError? <==> reply.NetworkError?
    ensures r.Reply? ==> |r.body| == |reply.body|
    ensures r.Reply? ==> forall k :: 0 <= k < |reply.body| ==> r.body[k] == reply.body[k].id
  {
    match reply
    case NetworkError => NetworkError
    case Reply(found) => Reply(Seqs.Map(found, ItemId))
  }
}
