/**
 * The array methods the slices and API helpers use on immutable copies:
 * `filter`, `findIndex`, index assignment after `findIndex`, `[0] ?? null`, and `map`.
 */
module Seqs {
  import opened Wrappers

  /** `idx` picks, in strictly increasing order, a position of `s` holding each element of `r`. */
  ghost predicate Embedding<T>(idx: seq<int>, r: seq<T>, s: seq<T>)
  {
    && |idx| == |r|
    && (forall k :: 0 <= k < |idx| ==> 0 <= idx[k] < |s| && r[k] == s[idx[k]])
    && (forall k, l :: 0 <= k < l < |idx| ==> idx[k] < idx[l])
  }

  /** `r` is `s` with some elements left out, the rest in their original order. */
  ghost predicate Subseq<T>(r: seq<T>, s: seq<T>)
  {
    exists idx :: Embedding(idx, r, s)
  }

  /** The empty sequence is a subsequence of every sequence. */
  lemma SubseqNil<T>(s: seq<T>)
    ensures Subseq([], s)
  {
    assert Embedding([], [], s);
  }

  /** Keeping a common head keeps the subsequence relation. */
  lemma SubseqCons<T>(x: T, r: seq<T>, s: seq<T>)
    requires Subseq(r, s)
    ensures Subseq([x] + r, [x] + s)
  {
    var idx :| Embedding(idx, r, s);
    var jdx := [0] + seq(|idx|, k requires 0 <= k < |idx| => idx[k] + 1);
    assert Embedding(jdx, [x] + r, [x] + s);
  }

  /** Prepending an element to `s` keeps the subsequence relation. */
  lemma SubseqSkip<T>(x: T, r: seq<T>, s: seq<T>)
    requires Subseq(r, s)
    ensures Subseq(r, [x] + s)
  {
    var idx :| Embedding(idx, r, s);
    var jdx := seq(|idx|, k requires 0 <= k < |idx| => idx[k] + 1);
    assert Embedding(jdx, r, [x] + s);
  }

  /** Every sequence is a subsequence of itself. */
  lemma SubseqRefl<T>(s: seq<T>)
    ensures Subseq(s, s)
  {
    assert Embedding(seq(|s|, k => k), s, s);
  }

  /** A subsequence of a subsequence of `c` is a subsequence of `c`. */
  lemma SubseqTrans<T>(a: seq<T>, b: seq<T>, c: seq<T>)
    requires Subseq(a, b) && Subseq(b, c)
    ensures Subseq(a, c)
  {
    var ab :| Embedding(ab, a, b);
    var bc :| Embedding(bc, b, c);
    var ac := seq(|ab|, k requires 0 <= k < |ab| => bc[ab[k]]);
    assert Embedding(ac, a, c);
  }

  /** `s.filter(p)`. */
  function Filter<T(!new)>(s: seq<T>, p: T -> bool): (r: seq<T>)
    ensures |r| <= |s|
    ensures forall x :: x in r <==> x in s && p(x)
    ensures forall x :: multiset(r)[x] == if p(x) then multiset(s)[x] else 0
    ensures Subseq(r, s)
  {
    if s == [] then SubseqNil(s); []
    else
      var t := Filter(s[1..], p);
      assert s == [s[0]] + s[1..];
      if p(s[0]) then SubseqCons(s[0], t, s[1..]); [s[0]] + t
      else SubseqSkip(s[0], t, s[1..]); t
  }

  /** Filtering with a predicate that holds of every element changes nothing. */
  lemma {:induction false} FilterAll<T(!new)>(s: seq<T>, p: T -> bool)
    requires forall x :: x in s ==> p(x)
    ensures Filter(s, p) == s
  {
    if s != [] {
      FilterAll(s[1..], p);
    }
  }

  /** Filtering a sequence with a known head tests the head, then filters the tail. */
  lemma FilterCons<T(!new)>(x: T, s: seq<T>, p: T -> bool)
    ensures Filter([x] + s, p) == (if p(x) then [x] else []) + Filter(s, p)
  {
    assert ([x] + s)[1..] == s;
  }

  /** Filtering distributes over concatenation. */
  lemma {:induction false} FilterAppend<T(!new)>(a: seq<T>, b: seq<T>, p: T -> bool)
    ensures Filter(a + b, p) == Filter(a, p) + Filter(b, p)
  {
    if a == [] {
      assert a + b == b;
    } else {
      var x, t := a[0], a[1..];
      assert a == [x] + t && a + b == [x] + (t + b);
      FilterAppend(t, b, p);
      FilterCons(x, t + b, p);
      FilterCons(x, t, p);
      AppendAssoc(if p(x) then [x] else [], Filter(t, p), Filter(b, p));
    }
  }

  /** Concatenation is associative. */
  lemma AppendAssoc<T>(u: seq<T>, v: seq<T>, w: seq<T>)
    ensures u + (v + w) == (u + v) + w
  {
  }

  /** `s.findIndex(x => key(x) === k)`: the first index whose key is `k`, or -1. */
  function IndexOf<T, K(==)>(s: seq<T>, key: T -> K, k: K): (i: int)
    ensures -1 <= i < |s|
    ensures i == -1 <==> forall j :: 0 <= j < |s| ==> key(s[j]) != k
    ensures 0 <= i ==> key(s[i]) == k && forall j :: 0 <= j < i ==> key(s[j]) != k
  {
    if s == [] then -1
    else if key(s[0]) == k then 0
    else
      var i := IndexOf(s[1..], key, k);
      if i == -1 then -1 else i + 1
  }

  /**
   * `const idx = s.findIndex(x => key(x) === key(x')); if (idx >= 0) s[idx] = x'`:
   * the first element with the key of `x` is replaced by `x`.
   */
  function ReplaceFirst<T, K(==)>(s: seq<T>, key: T -> K, x: T): (r: seq<T>)
    ensures |r| == |s|
    ensures IndexOf(s, key, key(x)) == -1 ==> r == s
    ensures IndexOf(s, key, key(x)) >= 0 ==> r[IndexOf(s, key, key(x))] == x
    ensures forall j :: 0 <= j < |s| && j != IndexOf(s, key, key(x)) ==> r[j] == s[j]
  {
    var i := IndexOf(s, key, key(x));
    if i >= 0 then s[i := x] else s
  }

  /** `s.filter(x => key(x) !== k)`. */
  function RemoveKey<T(!new), K(==)>(s: seq<T>, key: T -> K, k: K): (r: seq<T>)
    ensures forall x :: x in r <==> x in s && key(x) != k
    ensures forall x :: multiset(r)[x] == if key(x) != k then multiset(s)[x] else 0
    ensures Subseq(r, s)
  {
    Filter(s, x => key(x) != k)
  }

  /** Removing a key a second time changes nothing. */
  lemma RemoveKeyIdempotent<T(!new), K>(s: seq<T>, key: T -> K, k: K)
    ensures RemoveKey(RemoveKey(s, key, k), key, k) == RemoveKey(s, key, k)
  {
    FilterAll(RemoveKey(s, key, k), x => key(x) != k);
  }

  /** Removing the key of an element just appended, which no earlier element has, restores `s`. */
  lemma RemoveAppended<T(!new), K>(s: seq<T>, key: T -> K, x: T)
    requires forall y :: y in s ==> key(y) != key(x)
    ensures RemoveKey(s + [x], key, key(x)) == s
  {
    var p := y => key(y) != key(x);
    FilterAppend(s, [x], p);
    FilterAll(s, p);
    assert Filter([x], p) == [];
  }

  /** Replacing an element leaves the sequence of keys as it was. */
  lemma ReplaceFirstKeepsKeys<T, K>(s: seq<T>, key: T -> K, x: T)
    ensures Map(ReplaceFirst(s, key, x), key) == Map(s, key)
  {
  }

  /** Once a key is removed, an earlier replacement under that key leaves no trace. */
  lemma RemoveAfterReplace<T(!new), K>(s: seq<T>, key: T -> K, x: T)
    ensures RemoveKey(ReplaceFirst(s, key, x), key, key(x)) == RemoveKey(s, key, key(x))
  {
    var i := IndexOf(s, key, key(x));
    if i >= 0 {
      var p := y => key(y) != key(x);
      var r := ReplaceFirst(s, key, x);
      var pre, rest := s[..i], s[i + 1..];
      assert s == pre + ([s[i]] + rest);
      assert r == pre + ([x] + rest);
      FilterAppend(pre, [s[i]] + rest, p);
      FilterAppend(pre, [x] + rest, p);
      FilterCons(s[i], rest, p);
      FilterCons(x, rest, p);
    }
  }

  /** `s[0] ?? null`. */
  function First<T>(s: seq<T>): (r: Option<T>)
    ensures r.None? <==> s == []
    ensures r.Some? ==> r.value == s[0] && r.value in s
  {
    if s == [] then None else Some(s[0])
  }

  /** `s.map(f)`. */
  function Map<T, U>(s: seq<T>, f: T -> U): (r: seq<U>)
    ensures |r| == |s|
    ensures forall i :: 0 <= i < |s| ==> r[i] == f(s[i])
  {
    if s == [] then [] else [f(s[0])] + Map(s[1..], f)
  }
}
