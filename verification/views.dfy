/**
 * The projections both pages apply to what they show. The name filter compares
 * lower-cased text; the category filter compares exactly; the sort is a `switch` over
 * the sort key choosing `localeCompare` on the name or on `createdAt`, ascending or
 * descending, with `date_desc` for every other key, applied with a stable sort to a copy.
 */
module Views {
  import Text
  import Seqs
  import Sorting

  /** The lower-cased name contains the lower-cased search text. */
  predicate NameMatches(name: string, search: string) {
    Text.Contains(Text.ToLower(name), Text.ToLower(search))
  }

  /** `s.filter(x => name(x).toLowerCase().includes(search.toLowerCase()))`. */
  function NameFilter<T(!new)>(s: seq<T>, name: T -> string, search: string): (r: seq<T>)
    ensures forall x :: x in r <==> x in s && NameMatches(name(x), search)
    ensures forall x :: multiset(r)[x] == if NameMatches(name(x), search) then multiset(s)[x] else 0
    ensures Seqs.Subseq(r, s)
  {
    var needle := Text.ToLower(search);
    Seqs.Filter(s, (x: T) => Text.Contains(Text.ToLower(name(x)), needle))
  }

  /** `items.filter(i => i.category === category)`. */
  function CategoryFilter<T(!new)>(s: seq<T>, category: T -> string, cat: string): (r: seq<T>)
    ensures forall x :: x in r <==> x in s && category(x) == cat
    ensures forall x :: multiset(r)[x] == if category(x) == cat then multiset(s)[x] else 0
    ensures Seqs.Subseq(r, s)
  {
    Seqs.Filter(s, (x: T) => category(x) == cat)
  }

  /** The four keys the `switch` names. */
  const ViewKeys: seq<string> := ["date_desc", "date_asc", "name_asc", "name_desc"]

  /** Whether `sort` orders by name; every other key orders by creation date. */
  predicate ByName(sort: string) {
    sort == "name_asc" || sort == "name_desc"
  }

  /** Whether `sort` orders ascending; every other key, the fallback included, is descending. */
  predicate Ascending(sort: string) {
    sort == "name_asc" || sort == "date_asc"
  }

  /** The field `sort` compares. */
  function KeyFor<T>(sort: string, name: T -> string, createdAt: T -> string): T -> string {
    if ByName(sort) then name else createdAt
  }

  /** `r` is in the order the `switch` picks for `sort`. */
  ghost predicate OrderedFor<T>(r: seq<T>, sort: string, name: T -> string, createdAt: T -> string,
                                le: (string, string) -> bool) {
    && (sort == "name_asc" ==> Sorting.Sorted(r, name, false, le))
    && (sort == "name_desc" ==> Sorting.Sorted(r, name, true, le))
    && (sort == "date_asc" ==> Sorting.Sorted(r, createdAt, false, le))
    && (sort != "name_asc" && sort != "name_desc" && sort != "date_asc" ==> Sorting.Sorted(r, createdAt, true, le))
  }

  /** The sorted copy: a permutation of `s` in the order `sort` picks. */
  function SortView<T>(s: seq<T>, sort: string, name: T -> string, createdAt: T -> string,
                       le: (string, string) -> bool): (r: seq<T>)
    requires Sorting.TotalPreorder(le)
    ensures multiset(r) == multiset(s)
    ensures OrderedFor(r, sort, name, createdAt, le)
  {
    Sorting.SortBy(s, KeyFor(sort, name, createdAt), !Ascending(sort), le)
  }

  /** A key outside the four sorts exactly as `date_desc`. */
  lemma SortViewFallback<T>(s: seq<T>, sort: string, name: T -> string, createdAt: T -> string,
                            le: (string, string) -> bool)
    requires Sorting.TotalPreorder(le)
    requires sort !in ViewKeys
    ensures SortView(s, sort, name, createdAt, le) == SortView(s, "date_desc", name, createdAt, le)
  {
  }

  /** Elements whose compared field collates equal keep their relative input order. */
  lemma SortViewStable<T(!new)>(s: seq<T>, sort: string, name: T -> string, createdAt: T -> string,
                                le: (string, string) -> bool, k: string)
    requires Sorting.TotalPreorder(le)
    ensures var key := KeyFor(sort, name, createdAt);
            Sorting.Ties(SortView(s, sort, name, createdAt, le), key, le, k) == Sorting.Ties(s, key, le, k)
  {
    Sorting.SortByStable(s, KeyFor(sort, name, createdAt), !Ascending(sort), le, k);
  }
}
