/**
 * `Array.prototype.sort` with a `localeCompare` comparator, as the two pages use it:
 * a stable sort of a copy by one string key, ascending or descending.
 *
 * Collation is a parameter `le`, read as `localeCompare(a, b) <= 0`; the only thing
 * assumed of it is that it is a total preorder (total and transitive), as a
 * consistent comparator must be.
 */
module Sorting {
  import Seqs

  /** `le` relates every pair one way or the other, and transitively. */
  ghost predicate TotalPreorder(le: (string, string) -> bool) {
    && (forall a, b :: le(a, b) || le(b, a))
    && (forall a, b, c :: le(a, b) && le(b, c) ==> le(a, c))
  }

  /**
   * The comparator `cmp(x, y) <= 0`, so `x` may stay before `y`: for ascending order
   * `localeCompare(key(x), key(y))`, for descending order `localeCompare(key(y), key(x))`.
   */
  predicate InOrder<T>(key: T -> string, desc: bool, le: (string, string) -> bool, x: T, y: T) {
    if desc then le(key(y), key(x)) else le(key(x), key(y))
  }

  /** Every element may stay before every later one. */
  ghost predicate Sorted<T>(s: seq<T>, key: T -> string, desc: bool, le: (string, string) -> bool) {
    forall i, j :: 0 <= i < j < |s| ==> InOrder(key, desc, le, s[i], s[j])
  }

  lemma InOrderTotal<T>(key: T -> string, desc: bool, le: (string, string) -> bool, x: T, y: T)
    requires TotalPreorder(le)
    ensures InOrder(key, desc, le, x, y) || InOrder(key, desc, le, y, x)
  {
    assert le(key(x), key(y)) || le(key(y), key(x));
  }

  lemma InOrderTransitive<T>(key: T -> string, desc: bool, le: (string, string) -> bool, x: T, y: T, z: T)
    requires TotalPreorder(le)
    requires InOrder(key, desc, le, x, y) && InOrder(key, desc, le, y, z)
    ensures InOrder(key, desc, le, x, z)
  {
    if desc {
      assert le(key(z), key(y)) && le(key(y), key(x));
    } else {
      assert le(key(x), key(y)) && le(key(y), key(z));
    }
  }

  /**
   * Places `x` before the first element it may precede. `x` thus lands in front of
   * every element that compares equal to it.
   */
  function Insert<T>(x: T, s: seq<T>, key: T -> string, desc: bool, le: (string, string) -> bool): (r: seq<T>)
    ensures multiset(r) == multiset(s) + multiset{x}
    ensures |r| == |s| + 1
  {
    if s == [] || InOrder(key, desc, le, x, s[0]) then [x] + s
    else
      assert s == [s[0]] + s[1..];
      [s[0]] + Insert(x, s[1..], key, desc, le)
  }

  /** Inserting into an ordered sequence keeps it ordered. */
  lemma {:induction false} InsertSorted<T>(x: T, s: seq<T>, key: T -> string, desc: bool, le: (string, string) -> bool)
    requires TotalPreorder(le)
    requires Sorted(s, key, desc, le)
    ensures Sorted(Insert(x, s, key, desc, le), key, desc, le)
  {
    var r := Insert(x, s, key, desc, le);
    if s == [] || InOrder(key, desc, le, x, s[0]) {
      forall i, j | 0 <= i < j < |r| ensures InOrder(key, desc, le, r[i], r[j]) {
        if i == 0 && j > 1 {
          InOrderTransitive(key, desc, le, x, s[0], s[j - 1]);
        }
      }
    } else {
      var t := Insert(x, s[1..], key, desc, le);
      InsertSorted(x, s[1..], key, desc, le);
      InOrderTotal(key, desc, le, x, s[0]);
      assert r == [s[0]] + t;
      forall i, j | 0 <= i < j < |r| ensures InOrder(key, desc, le, r[i], r[j]) {
        if i == 0 {
          assert r[j] == t[j - 1];
          assert t[j - 1] in multiset(t);
          assert r[j] == x || r[j] in s[1..];
        } else {
          assert r[i] == t[i - 1] && r[j] == t[j - 1];
        }
      }
    }
  }

  /** Stable insertion sort of `s`: the result is an ordered permutation of `s`. */
  function SortBy<T>(s: seq<T>, key: T -> string, desc: bool, le: (string, string) -> bool): (r: seq<T>)
    requires TotalPreorder(le)
    ensures multiset(r) == multiset(s)
    ensures |r| == |s|
    ensures Sorted(r, key, desc, le)
  {
    if s == [] then []
    else
      assert s == [s[0]] + s[1..];
      var t := SortBy(s[1..], key, desc, le);
      InsertSorted(s[0], t, key, desc, le);
      Insert(s[0], t, key, desc, le)
  }

  /** The key of `y` collates equal to `k`. */
  predicate Tied<T>(key: T -> string, le: (string, string) -> bool, k: string, y: T) {
    le(key(y), k) && le(k, key(y))
  }

  /** The elements of `s` whose key collates equal to `k`, in their order in `s`. */
  function Ties<T>(s: seq<T>, key: T -> string, le: (string, string) -> bool, k: string): seq<T>
  {
    if s == [] then [] else (if Tied(key, le, k, s[0]) then [s[0]] else []) + Ties(s[1..], key, le, k)
  }

  lemma {:induction false} InsertTies<T>(x: T, s: seq<T>, key: T -> string, desc: bool,
                                         le: (string, string) -> bool, k: string)
    requires TotalPreorder(le)
    ensures Ties(Insert(x, s, key, desc, le), key, le, k)
         == (if Tied(key, le, k, x) then [x] else []) + Ties(s, key, le, k)
  {
    if s == [] || InOrder(key, desc, le, x, s[0]) {
      assert ([x] + s)[1..] == s;
    } else {
      var t := Insert(x, s[1..], key, desc, le);
      InsertTies(x, s[1..], key, desc, le, k);
      assert ([s[0]] + t)[1..] == t;
    }
  }

  /**
   * Stability: for every collation class, the elements of that class appear in the
   * sorted result in the same order as in the input.
   */
  lemma {:induction false} SortByStable<T(!new)>(s: seq<T>, key: T -> string, desc: bool,
                                                 le: (string, string) -> bool, k: string)
    requires TotalPreorder(le)
    ensures Ties(SortBy(s, key, desc, le), key, le, k) == Ties(s, key, le, k)
  {
    if s != [] {
      SortByStable(s[1..], key, desc, le, k);
      InsertTies(s[0], SortBy(s[1..], key, desc, le), key, desc, le, k);
      assert s == [s[0]] + s[1..];
    }
  }
}
