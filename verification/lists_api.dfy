/**
 * `src/features/lists/listsApi.ts`: the client-side work done on `/lists` replies.
 * A reply is the body the backend returned, or the error the call threw.
 */
module ListsApi {
  import opened Wrappers
  import opened Types
  import Seqs

  /** `fetchListsByUser(userId)`: `GET /lists`, then keep the lists of `userId`. */
  function FetchListsByUser(reply: Reply<seq<ShoppingList>>, userId: string): (r: Reply<seq<ShoppingList>>)
    ensures r.NetworkError? <==> reply.NetworkError?
    ensures r.Reply? ==> |r.body| <= |reply.body|
    ensures r.Reply? ==> forall l :: l in r.body <==> l in reply.body && l.userId == userId
    ensures r.Reply? ==> forall l :: multiset(r.body)[l] == if l.userId == userId then multiset(reply.body)[l] else 0
    ensures r.Reply? ==> Seqs.Subseq(r.body, reply.body)
  {
    match reply
    case NetworkError => NetworkError
    case Reply(all) => Reply(Seqs.Filter(all, (l: ShoppingList) => l.userId == userId))
  }

  /** `fetchListByShareToken(token)`: the first list of the `?shareToken=` reply, or null. */
  function FetchListByShareToken(reply: Reply<seq<ShoppingList>>): (r: Reply<Option<ShoppingList>>)
    ensures r.NetworkError? <==> reply.NetworkError?
    ensures r.Reply? ==> (r.body.None? <==> reply.body == [])
    ensures r.Reply? && r.body.Some? ==> r.body.value == reply.body[0]
  {
    match reply
    case NetworkError => NetworkError
    case Reply(found) => Reply(Seqs.First(found))
  }
}
