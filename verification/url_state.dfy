/** `src/utils/urlState.ts`: the item search text and sort key read from the address bar. */
module UrlState {
  import opened Wrappers
  import SearchParams

  /** The six sort keys `isValidSort` admits. */
  const SortKeys: seq<string> := ["name_asc", "name_desc", "category_asc", "category_desc", "date_asc", "date_desc"]

  /** `isValidSort(v)`: one of exactly the six keys. */
  predicate IsValidSort(v: string)
    ensures IsValidSort(v) <==>
              (v == "name_asc" || v == "name_desc" || v == "category_asc" ||
               v == "category_desc" || v == "date_asc" || v == "date_desc")
  {
    v in SortKeys
  }

  datatype UrlView = UrlView(search: string, sort: string)

  /** `getUrlState(sp)`. */
  function GetUrlState(sp: SearchParams.Params): (u: UrlView)
    ensures u.search == match SearchParams.Get(sp, "search") case Some(s) => s case None => ""
    ensures IsValidSort(u.sort)
    ensures match SearchParams.Get(sp, "sort")
            case Some(raw) => u.sort == (if IsValidSort(raw) then raw else "date_desc")
            case None => u.sort == "date_desc"
  {
    var search := match SearchParams.Get(sp, "search") case Some(s) => s case None => "";
    var sortRaw := match SearchParams.Get(sp, "sort") case Some(s) => s case None => "date_desc";
    UrlView(search, if IsValidSort(sortRaw) then sortRaw else "date_desc")
  }
}
