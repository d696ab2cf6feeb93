/**
 * `src/pages/SharePage.tsx`: the read-only page behind a share link. It reads its
 * search, sort and category from the query, filters and sorts the shared list's items,
 * and its setters copy the query parameters and set or delete one key.
 */
module SharePage {
  import opened Types
  import Text
  import Sorting
  import Views
  import SearchParams
  import HomePage
  import Seqs

  type Params = SearchParams.Params

  /** `isValidShareSort(v)`: one of exactly the four keys. */
  predicate IsValidShareSort(v: string)
    ensures IsValidShareSort(v) <==> (v == "date_desc" || v == "date_asc" || v == "name_asc" || v == "name_desc")
  {
    v in Views.ViewKeys
  }

  /** `sortItems(items, sort)`: an ordered permutation of a copy of `items`. */
  function SortItems(items: seq<ShoppingItem>, sort: string, le: (string, string) -> bool): (r: seq<ShoppingItem>)
    requires Sorting.TotalPreorder(le)
    ensures multiset(r) == multiset(items)
    ensures Views.OrderedFor(r, sort, ItemName, ItemCreatedAt, le)
  {
    Views.SortView(items, sort, ItemName, ItemCreatedAt, le)
  }

  /** The query the page reads. */
  datatype ShareQuery = ShareQuery(search: string, sort: string, cat: string)

  /** `search`, `sort` and `cat` with their defaults: "", `date_desc` and "All". */
  function ReadQuery(sp: Params): (q: ShareQuery)
    ensures IsValidShareSort(q.sort)
    ensures q.search == match SearchParams.Get(sp, "search") case Some(s) => s case None => ""
    ensures q.cat == match SearchParams.Get(sp, "cat") case Some(c) => c case None => "All"
    ensures match SearchParams.Get(sp, "sort")
            case Some(raw) => q.sort == (if IsValidShareSort(raw) then raw else "date_desc")
            case None => q.sort == "date_desc"
  {
    var search := match SearchParams.Get(sp, "search") case Some(s) => s case None => "";
    var sortRaw := match SearchParams.Get(sp, "sort") case Some(s) => s case None => "date_desc";
    var cat := match SearchParams.Get(sp, "cat") case Some(c) => c case None => "All";
    ShareQuery(search, if IsValidShareSort(sortRaw) then sortRaw else "date_desc", cat)
  }

  /** An item is shown: its name matches unless the search is blank, and its category unless `cat` is "All". */
  predicate Shows(i: ShoppingItem, search: string, cat: string) {
    (Text.IsBlank(search) || Views.NameMatches(i.name, search)) && (cat == "All" || i.category == cat)
  }

  /** `visible`: exactly the shown items, as often as in `items`, in the chosen order. */
  function Visible(items: seq<ShoppingItem>, search: string, cat: string, sort: string,
                   le: (string, string) -> bool): (r: seq<ShoppingItem>)
    requires Sorting.TotalPreorder(le)
    ensures forall i :: i in r <==> i in items && Shows(i, search, cat)
    ensures forall i :: multiset(r)[i] == if Shows(i, search, cat) then multiset(items)[i] else 0
    ensures Views.OrderedFor(r, sort, ItemName, ItemCreatedAt, le)
  {
    var f := Filtered(items, search, cat);
    var r := SortItems(f, sort, le);
    assert forall i :: i in r <==> i in f by {
      forall i ensures i in r <==> i in f {
        assert i in r <==> multiset(r)[i] > 0;
        assert i in f <==> multiset(f)[i] > 0;
      }
    }
    r
  }

  /** The two filters of `visible`, before sorting. */
  function Filtered(items: seq<ShoppingItem>, search: string, cat: string): (r: seq<ShoppingItem>)
    ensures forall i :: i in r <==> i in items && Shows(i, search, cat)
    ensures forall i :: multiset(r)[i] == if Shows(i, search, cat) then multiset(items)[i] else 0
    ensures Seqs.Subseq(r, items)
  {
    if Text.IsBlank(search) then
      if cat != "All" then Views.CategoryFilter(items, ItemCategoryOf, cat)
      else Seqs.SubseqRefl(items); items
    else
      var byName := Views.NameFilter(items, ItemName, search);
      if cat != "All" then
        var both := Views.CategoryFilter(byName, ItemCategoryOf, cat);
        Seqs.SubseqTrans(both, byName, items);
        both
      else byName
  }

  /** A whitespace-only search shows what no search shows. */
  lemma BlankSearchShowsAll(items: seq<ShoppingItem>, search: string, cat: string, sort: string,
                            le: (string, string) -> bool)
    requires Sorting.TotalPreorder(le)
    requires Text.IsBlank(search)
    ensures Visible(items, search, cat, sort, le) == Visible(items, "", cat, sort, le)
  {
    assert Text.Trim("") == "";
  }

  /**
   * With a search that is not blank, the shared page shows the same sequence as the
   * home page's item view for the same items, search, category and sort.
   */
  lemma AgreesWithHomePage(items: seq<ShoppingItem>, search: string, cat: string, sort: string,
                           le: (string, string) -> bool)
    requires Sorting.TotalPreorder(le)
    requires !Text.IsBlank(search)
    ensures Visible(items, search, cat, sort, le) == HomePage.VisibleItems(items, search, cat, sort, le)
  {
  }

  /** `setSearch(value)`: the page then searches for `value`, or for nothing when it is blank. */
  method SetSearch(sp: Params, value: string) returns (next: Params)
    ensures ReadQuery(next).search == if Text.IsBlank(value) then "" else value
    ensures ReadQuery(next).sort == ReadQuery(sp).sort && ReadQuery(next).cat == ReadQuery(sp).cat
    ensures SearchParams.Delete(next, "search") == SearchParams.Delete(sp, "search")
  {
    next := HomePage.SetOrDelete(sp, "search", value, !Text.IsBlank(value));
  }

  /** `setSort(value)`: one of the four keys becomes the sort; any other value changes nothing. */
  method SetSort(sp: Params, value: string) returns (next: Params)
    ensures IsValidShareSort(value) ==> ReadQuery(next) == ReadQuery(sp).(sort := value)
    ensures IsValidShareSort(value) ==> SearchParams.Delete(next, "sort") == SearchParams.Delete(sp, "sort")
    ensures !IsValidShareSort(value) ==> next == sp
  {
    next := sp;
    if IsValidShareSort(value) {
      next := HomePage.SetOrDelete(sp, "sort", value, true);
    }
  }

  /** `setCat(value)`: the category becomes `value`, with "" standing for "All". */
  method SetCat(sp: Params, value: string) returns (next: Params)
    ensures ReadQuery(next) == ReadQuery(sp).(cat := if value == "" then "All" else value)
    ensures value == "" || value == "All" ==> SearchParams.Get(next, "cat").None?
    ensures SearchParams.Delete(next, "cat") == SearchParams.Delete(sp, "cat")
  {
    next := HomePage.SetOrDelete(sp, "cat", value, value != "" && value != "All");
  }
}
