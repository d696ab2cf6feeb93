/**
 * `src/pages/HomePage.tsx`: what the home page shows and what it dispatches. The
 * projections filter and sort copies of the store's lists and items; the URL setters
 * copy the query parameters and set or delete one key; the submit handlers guard the
 * form before dispatching a thunk.
 */
module HomePage {
  import opened Wrappers
  import opened Types
  import Text
  import Sorting
  import Views
  import SearchParams
  import UrlState
  import ItemsSlice

  type Params = SearchParams.Params

  /** `sortItems(items, sort)`: an ordered permutation of a copy of `items`. */
  function SortItems(items: seq<ShoppingItem>, sort: string, le: (string, string) -> bool): (r: seq<ShoppingItem>)
    requires Sorting.TotalPreorder(le)
    ensures multiset(r) == multiset(items)
    ensures Views.OrderedFor(r, sort, ItemName, ItemCreatedAt, le)
  {
    Views.SortView(items, sort, ItemName, ItemCreatedAt, le)
  }

  /** `sortLists(lists, sort)`: an ordered permutation of a copy of `lists`. */
  function SortLists(lists: seq<ShoppingList>, sort: string, le: (string, string) -> bool): (r: seq<ShoppingList>)
    requires Sorting.TotalPreorder(le)
    ensures multiset(r) == multiset(lists)
    ensures Views.OrderedFor(r, sort, ListName, ListCreatedAt, le)
  {
    Views.SortView(lists, sort, ListName, ListCreatedAt, le)
  }

  /** An item passes the name filter and, unless the category is "All", the category filter. */
  predicate ShowsItem(i: ShoppingItem, search: string, category: string) {
    Views.NameMatches(i.name, search) && (category == "All" || i.category == category)
  }

  /** `visibleItems`: exactly the items passing both filters, as often as in `items`, in the chosen order. */
  function VisibleItems(items: seq<ShoppingItem>, search: string, category: string, sort: string,
                        le: (string, string) -> bool): (r: seq<ShoppingItem>)
    requires Sorting.TotalPreorder(le)
    ensures forall i :: i in r <==> i in items && ShowsItem(i, search, category)
    ensures forall i :: multiset(r)[i] == if ShowsItem(i, search, category) then multiset(items)[i] else 0
    ensures Views.OrderedFor(r, sort, ItemName, ItemCreatedAt, le)
  {
    var byName := Views.NameFilter(items, ItemName, search);
    var filtered := if category != "All" then Views.CategoryFilter(byName, ItemCategoryOf, category) else byName;
    SortItems(filtered, sort, le)
  }

  /** `visibleLists`: exactly the lists whose name matches, as often as in `lists`, in the chosen order. */
  function VisibleLists(lists: seq<ShoppingList>, search: string, sort: string,
                        le: (string, string) -> bool): (r: seq<ShoppingList>)
    requires Sorting.TotalPreorder(le)
    ensures forall l :: l in r <==> l in lists && Views.NameMatches(l.name, search)
    ensures forall l :: multiset(r)[l] == if Views.NameMatches(l.name, search) then multiset(lists)[l] else 0
    ensures Views.OrderedFor(r, sort, ListName, ListCreatedAt, le)
  {
    SortLists(Views.NameFilter(lists, ListName, search), sort, le)
  }

  /** The search is case-insensitive: lower-casing it first shows the same items. */
  lemma VisibleItemsCaseInsensitive(items: seq<ShoppingItem>, search: string, category: string, sort: string,
                                    le: (string, string) -> bool)
    requires Sorting.TotalPreorder(le)
    ensures VisibleItems(items, Text.ToLower(search), category, sort, le) == VisibleItems(items, search, category, sort, le)
  {
    Text.ToLowerIdempotent(search);
  }

  /** An empty search with category "All" shows every item. */
  lemma VisibleItemsShowAll(items: seq<ShoppingItem>, sort: string, le: (string, string) -> bool)
    requires Sorting.TotalPreorder(le)
    ensures multiset(VisibleItems(items, "", "All", sort, le)) == multiset(items)
  {
    var r := VisibleItems(items, "", "All", sort, le);
    forall i ensures multiset(r)[i] == multiset(items)[i] {
      assert ShowsItem(i, "", "All");
    }
  }

  /** The item category filter: `cat`, or "All" without one. */
  function ItemCategory(sp: Params): (c: string)
    ensures SearchParams.Get(sp, "cat").None? ==> c == "All"
    ensures SearchParams.Get(sp, "cat").Some? ==> c == SearchParams.Get(sp, "cat").value
  {
    match SearchParams.Get(sp, "cat") case Some(v) => v case None => "All"
  }

  /** The list search: `lsearch` as written, or "" without one. */
  function ListSearch(sp: Params): (s: string)
    ensures SearchParams.Get(sp, "lsearch").None? ==> s == ""
    ensures SearchParams.Get(sp, "lsearch").Some? ==> s == SearchParams.Get(sp, "lsearch").value
  {
    match SearchParams.Get(sp, "lsearch") case Some(v) => v case None => ""
  }

  /** The list sort: `lsort` when it is one of the four keys, else `date_desc`. */
  function ListSort(sp: Params): (s: string)
    ensures s in Views.ViewKeys
    ensures match SearchParams.Get(sp, "lsort")
            case Some(raw) => s == (if raw in Views.ViewKeys then raw else "date_desc")
            case None => s == "date_desc"
  {
    var raw := match SearchParams.Get(sp, "lsort") case Some(v) => v case None => "date_desc";
    if raw in Views.ViewKeys then raw else "date_desc"
  }

  /** Sets `name` when `keep`, else deletes it; every other pair is left as it was. */
  method SetOrDelete(sp: Params, name: string, value: string, keep: bool) returns (next: Params)
    ensures keep ==> SearchParams.Get(next, name) == Some(value)
    ensures !keep ==> SearchParams.Get(next, name) == None
    ensures SearchParams.Delete(next, name) == SearchParams.Delete(sp, name)
    ensures forall other :: other != name ==> SearchParams.Get(next, other) == SearchParams.Get(sp, other)
  {
    next := sp;
    if keep {
      next := SearchParams.Set(next, name, value);
      SearchParams.GetAfterSet(sp, name, value);
      SearchParams.SetKeepsOtherPairs(sp, name, value);
      forall other | other != name ensures SearchParams.Get(next, other) == SearchParams.Get(sp, other) {
        SearchParams.GetAfterSetOther(sp, name, value, other);
      }
    } else {
      next := SearchParams.Delete(next, name);
      SearchParams.DeleteIdempotent(sp, name);
      forall other | other != name ensures SearchParams.Get(next, other) == SearchParams.Get(sp, other) {
        SearchParams.GetAfterDeleteOther(sp, name, other);
      }
    }
  }

  /** `setSearch(value)`: the page then searches for `value`, or for nothing when it is blank. */
  method SetSearch(sp: Params, value: string) returns (next: Params)
    ensures UrlState.GetUrlState(next).search == if Text.IsBlank(value) then "" else value
    ensures UrlState.GetUrlState(next).sort == UrlState.GetUrlState(sp).sort
    ensures SearchParams.Delete(next, "search") == SearchParams.Delete(sp, "search")
  {
    next := SetOrDelete(sp, "search", value, !Text.IsBlank(value));
  }

  /** `setSort(value)`: a valid key becomes the sort; any other value changes nothing. */
  method SetSort(sp: Params, value: string) returns (next: Params)
    ensures UrlState.IsValidSort(value) ==> UrlState.GetUrlState(next).sort == value
    ensures UrlState.IsValidSort(value) ==> SearchParams.Delete(next, "sort") == SearchParams.Delete(sp, "sort")
    ensures !UrlState.IsValidSort(value) ==> next == sp
    ensures UrlState.GetUrlState(next).search == UrlState.GetUrlState(sp).search
  {
    next := sp;
    if UrlState.IsValidSort(value) {
      next := SetOrDelete(sp, "sort", value, true);
    }
  }

  /** `setItemCategory(value)`: the filter becomes `value`, with "" standing for "All". */
  method SetItemCategory(sp: Params, value: string) returns (next: Params)
    ensures ItemCategory(next) == if value == "" then "All" else value
    ensures value == "" || value == "All" ==> SearchParams.Get(next, "cat").None?
    ensures SearchParams.Delete(next, "cat") == SearchParams.Delete(sp, "cat")
  {
    next := SetOrDelete(sp, "cat", value, value != "" && value != "All");
  }

  /** `setListSearch(value)`: the list search becomes `value`, or nothing when it is blank. */
  method SetListSearch(sp: Params, value: string) returns (next: Params)
    ensures ListSearch(next) == if Text.IsBlank(value) then "" else value
    ensures SearchParams.Delete(next, "lsearch") == SearchParams.Delete(sp, "lsearch")
  {
    next := SetOrDelete(sp, "lsearch", value, !Text.IsBlank(value));
  }

  /** `setListSort(value)`: one of the four keys becomes the list sort; any other value changes nothing. */
  method SetListSort(sp: Params, value: string) returns (next: Params)
    ensures value in Views.ViewKeys ==> ListSort(next) == value
    ensures value in Views.ViewKeys ==> SearchParams.Delete(next, "lsort") == SearchParams.Delete(sp, "lsort")
    ensures value !in Views.ViewKeys ==> next == sp
  {
    next := sp;
    if value in Views.ViewKeys {
      next := SetOrDelete(sp, "lsort", value, true);
    }
  }

  /** Whether the modal adds or edits. */
  datatype Mode = Add | Edit

  /** What `submitList` does. */
  datatype ListSubmit =
    | Ignored                                  // no signed-in user: return silently
    | Refused(message: string)                 // an alert, no dispatch, the modal stays open
    | AddList(userId: string, name: string)    // dispatch `addListThunk`
    | UpdateList(id: string, name: string)     // dispatch `updateListThunk`
    | Closed                                   // edit without a selected list: only close the modal

  const ListNameRequired := "List name is required."

  /** `submitList()`: a blank name is refused; the name is passed on as typed, the thunk trims it. */
  function SubmitList(userId: Option<string>, listName: string, mode: Mode, selectedListId: Option<string>): (r: ListSubmit)
    ensures !Truthy(userId) <==> r == Ignored
    ensures r.Refused? <==> Truthy(userId) && Text.IsBlank(listName)
    ensures r.Refused? ==> r.message == ListNameRequired
    ensures r.AddList? <==> Truthy(userId) && !Text.IsBlank(listName) && mode.Add?
    ensures r.AddList? ==> r.userId == userId.value && r.name == listName
    ensures r.UpdateList? <==> Truthy(userId) && !Text.IsBlank(listName) && mode.Edit? && Truthy(selectedListId)
    ensures r.UpdateList? ==> r.id == selectedListId.value && r.name == listName
  {
    if !Truthy(userId) then Ignored
    else if Text.IsBlank(listName) then Refused(ListNameRequired)
    else if mode.Add? then AddList(userId.value, listName)
    else if Truthy(selectedListId) then UpdateList(selectedListId.value, listName)
    else Closed
  }

  /** The item modal's fields. */
  datatype ItemForm = ItemForm(name: string, quantity: int, category: string, notes: string, imageUrl: string)

  /** The payload of `addItemThunk`. */
  datatype AddItemRequest = AddItemRequest(userId: string, listId: string, name: string, quantity: int,
                                           category: string, notes: Option<string>, imageUrl: Option<string>)

  /** What `submitItem` does. */
  datatype ItemSubmit =
    | IgnoredItem
    | RefusedItem(message: string)
    | AddItem(request: AddItemRequest)
    | UpdateItem(id: string, patch: ItemsSlice.ItemPatch)
    | ClosedItem

  const ItemNameRequired := "Item name is required."
  const CategoryRequired := "Category is required."
  const QuantityTooSmall := "Quantity must be 1 or more."

  /** The form passes all three checks. */
  predicate FormValid(form: ItemForm) {
    !Text.IsBlank(form.name) && !Text.IsBlank(form.category) && form.quantity >= 1
  }

  /**
   * `submitItem()`: the name, category and quantity checks run in that order and the
   * first failure is reported; only a valid form is dispatched.
   */
  function SubmitItem(userId: Option<string>, selectedListId: Option<string>, form: ItemForm, mode: Mode,
                      editing: Option<ShoppingItem>): (r: ItemSubmit)
    ensures r == IgnoredItem <==> !Truthy(userId) || !Truthy(selectedListId)
    ensures r.AddItem? || r.UpdateItem? || r.ClosedItem? ==> FormValid(form)
    ensures r.RefusedItem? <==> Truthy(userId) && Truthy(selectedListId) && !FormValid(form)
    ensures r.RefusedItem? ==> r.message == if Text.IsBlank(form.name) then ItemNameRequired
                                           else if Text.IsBlank(form.category) then CategoryRequired
                                           else QuantityTooSmall
    ensures r.AddItem? <==> Truthy(userId) && Truthy(selectedListId) && FormValid(form) && mode.Add?
    ensures r.AddItem? ==> r.request == AddItemRequest(userId.value, selectedListId.value, form.name, form.quantity,
                                                       form.category, Some(form.notes), Some(form.imageUrl))
    ensures r.UpdateItem? <==> Truthy(userId) && Truthy(selectedListId) && FormValid(form) && mode.Edit? && editing.Some?
    ensures r.UpdateItem? ==> r.id == editing.value.id
    ensures r.UpdateItem? ==> r.patch == ItemsSlice.ItemPatch(Some(form.name), Some(form.quantity), Some(form.notes),
                                                             Some(form.category), Some(form.imageUrl))
  {
    if !Truthy(userId) || !Truthy(selectedListId) then IgnoredItem
    else if Text.IsBlank(form.name) then RefusedItem(ItemNameRequired)
    else if Text.IsBlank(form.category) then RefusedItem(CategoryRequired)
    else if form.quantity < 1 then RefusedItem(QuantityTooSmall)
    else if mode.Add? then
      AddItem(AddItemRequest(userId.value, selectedListId.value, form.name, form.quantity,
                             form.category, Some(form.notes), Some(form.imageUrl)))
    else if editing.Some? then
      UpdateItem(editing.value.id, ItemsSlice.ItemPatch(Some(form.name), Some(form.quantity), Some(form.notes),
                                                        Some(form.category), Some(form.imageUrl)))
    else ClosedItem
  }

  /**
   * What the guard buys: an added item, once `addItemThunk` normalises it, has a
   * non-empty name, its own trimmed category (never the "Other" default), and a
   * quantity of at least 1.
   */
  lemma SubmittedItemWellFormed(userId: Option<string>, selectedListId: Option<string>, form: ItemForm,
                                id: string, now: string)
    requires SubmitItem(userId, selectedListId, form, Add, None).AddItem?
    ensures var q := SubmitItem(userId, selectedListId, form, Add, None).request;
            var item := ItemsSlice.NewItem(id, q.userId, q.listId, q.name, q.quantity, q.category, q.notes, q.imageUrl, now);
            item.name != "" && item.category == Text.Trim(form.category) && item.quantity >= 1
            && item.listId == selectedListId.value
  {
  }

  /** The share link: built from a token that is not blank, and "" otherwise. */
  function ShareUrl(origin: string, selected: Option<ShoppingList>): (url: string)
    ensures url != "" <==> selected.Some? && selected.value.shareToken.Some? && !Text.IsBlank(selected.value.shareToken.value)
    ensures url != "" ==> url == origin + "/share/" + selected.value.shareToken.value + "?sort=date_desc"
  {
    if selected.Some? && selected.value.shareToken.Some? && !Text.IsBlank(selected.value.shareToken.value)
    then origin + "/share/" + selected.value.shareToken.value + "?sort=date_desc"
    else ""
  }
}
