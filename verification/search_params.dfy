/**
 * `URLSearchParams` as the WHATWG URL Standard defines it: an ordered list of
 * name-value pairs. `get` returns the value of the first pair with the name;
 * `set` overwrites the first such pair and removes the others, or appends a pair;
 * `delete` removes every pair with the name.
 */
module SearchParams {
  import opened Wrappers

  type Params = seq<(string, string)>

  /** `sp.get(name)`. */
  function Get(sp: Params, name: string): (r: Option<string>)
    ensures r.None? <==> forall i :: 0 <= i < |sp| ==> sp[i].0 != name
    ensures r.Some? ==> (name, r.value) in sp
    ensures forall i :: 0 <= i < |sp| && sp[i].0 == name && (forall j :: 0 <= j < i ==> sp[j].0 != name) ==>
              r == Some(sp[i].1)
  {
    if sp == [] then None
    else if sp[0].0 == name then Some(sp[0].1)
    else Get(sp[1..], name)
  }

  /** `sp.delete(name)`. */
  function Delete(sp: Params, name: string): (r: Params)
    ensures forall p :: p in r <==> p in sp && p.0 != name
    ensures forall p :: multiset(r)[p] == if p.0 != name then multiset(sp)[p] else 0
  {
    if sp == [] then []
    else
      assert sp == [sp[0]] + sp[1..];
      (if sp[0].0 == name then [] else [sp[0]]) + Delete(sp[1..], name)
  }

  /** `sp.set(name, value)`. */
  function Set(sp: Params, name: string, value: string): (r: Params)
    ensures (name, value) in r
    ensures forall p :: p in r && p.0 == name ==> p.1 == value
  {
    if sp == [] then [(name, value)]
    else if sp[0].0 == name then [(name, value)] + Delete(sp[1..], name)
    else [sp[0]] + Set(sp[1..], name, value)
  }

  /** At most one pair carries the name. */
  predicate AtMostOnePair(sp: Params, name: string)
  {
    forall i, j :: 0 <= i < j < |sp| && sp[i].0 == name ==> sp[j].0 != name
  }

  /** After `set`, no two pairs carry the name. */
  lemma {:induction false} SetLeavesOnePair(sp: Params, name: string, value: string)
    ensures AtMostOnePair(Set(sp, name, value), name)
  {
    var r := Set(sp, name, value);
    if sp == [] {
    } else if sp[0].0 == name {
      var t := Delete(sp[1..], name);
      assert r == [(name, value)] + t;
      forall i, j | 0 <= i < j < |r| && r[i].0 == name
        ensures r[j].0 != name
      {
        assert r[j] == t[j - 1] && t[j - 1] in t;
      }
    } else {
      var t := Set(sp[1..], name, value);
      SetLeavesOnePair(sp[1..], name, value);
      assert r == [sp[0]] + t;
      forall i, j | 0 <= i < j < |r| && r[i].0 == name
        ensures r[j].0 != name
      {
        assert r[0] == sp[0];
        assert r[i] == t[i - 1] && r[j] == t[j - 1];
      }
    }
  }

  /** With no pair of that name, `set` appends one at the end. */
  lemma {:induction false} SetAppendsWhenAbsent(sp: Params, name: string, value: string)
    requires forall i :: 0 <= i < |sp| ==> sp[i].0 != name
    ensures Set(sp, name, value) == sp + [(name, value)]
  {
    if sp != [] {
      forall i | 0 <= i < |sp[1..]|
        ensures sp[1..][i].0 != name
      {
        assert sp[1..][i] == sp[i + 1];
      }
      SetAppendsWhenAbsent(sp[1..], name, value);
      assert sp == [sp[0]] + sp[1..];
    }
  }

  /** `set` writes the value where the first pair of that name was, and keeps the pairs before it. */
  lemma {:induction false} SetAtFirstPair(sp: Params, name: string, value: string, i: nat)
    requires i < |sp| && sp[i].0 == name
    requires forall j :: 0 <= j < i ==> sp[j].0 != name
    ensures var r := Set(sp, name, value); i < |r| && r[..i] == sp[..i] && r[i] == (name, value)
  {
    if i > 0 {
      var t := Set(sp[1..], name, value);
      assert sp[0].0 != name;
      assert Set(sp, name, value) == [sp[0]] + t;
      forall j | 0 <= j < i - 1
        ensures sp[1..][j].0 != name
      {
        assert sp[1..][j] == sp[j + 1];
      }
      SetAtFirstPair(sp[1..], name, value, i - 1);
      assert sp[..i] == [sp[0]] + sp[1..][..i - 1];
    }
  }

  /** After `set`, `get` of that name yields the value set. */
  lemma {:induction false} GetAfterSet(sp: Params, name: string, value: string)
    ensures Get(Set(sp, name, value), name) == Some(value)
  {
    if sp != [] && sp[0].0 != name {
      GetAfterSet(sp[1..], name, value);
    }
  }

  /**
   * `set` leaves the pairs of every other name exactly as they were, in the same
   * order: removing `name` before or after the `set` gives the same list.
   */
  lemma {:induction false} SetKeepsOtherPairs(sp: Params, name: string, value: string)
    ensures Delete(Set(sp, name, value), name) == Delete(sp, name)
  {
    if sp == [] {
    } else if sp[0].0 == name {
      DeleteIdempotent(sp[1..], name);
      assert ([(name, value)] + Delete(sp[1..], name))[1..] == Delete(sp[1..], name);
    } else {
      SetKeepsOtherPairs(sp[1..], name, value);
      assert ([sp[0]] + Set(sp[1..], name, value))[1..] == Set(sp[1..], name, value);
    }
  }

  /** Deleting a name a second time changes nothing. */
  lemma {:induction false} DeleteIdempotent(sp: Params, name: string)
    ensures Delete(Delete(sp, name), name) == Delete(sp, name)
  {
    if sp != [] {
      DeleteIdempotent(sp[1..], name);
      var t := Delete(sp[1..], name);
      if sp[0].0 == name {
        assert Delete(sp, name) == t;
      } else {
        assert Delete(sp, name) == [sp[0]] + t;
        assert ([sp[0]] + t)[1..] == t;
      }
    }
  }

  /** Removing all pairs of one name does not change `get` of another name. */
  lemma {:induction false} GetAfterDeleteOther(sp: Params, name: string, other: string)
    requires other != name
    ensures Get(Delete(sp, name), other) == Get(sp, other)
  {
    if sp != [] {
      GetAfterDeleteOther(sp[1..], name, other);
      var t := Delete(sp[1..], name);
      if sp[0].0 == name {
        assert Delete(sp, name) == t;
      } else {
        assert Delete(sp, name) == [sp[0]] + t;
        assert ([sp[0]] + t)[1..] == t;
      }
    }
  }

  /** `get` of another name is the same before and after `set`. */
  lemma {:induction false} GetAfterSetOther(sp: Params, name: string, value: string, other: string)
    requires other != name
    ensures Get(Set(sp, name, value), other) == Get(sp, other)
  {
    if sp == [] {
    } else if sp[0].0 == name {
      GetAfterDeleteOther(sp[1..], name, other);
      assert ([(name, value)] + Delete(sp[1..], name))[1..] == Delete(sp[1..], name);
    } else {
      GetAfterSetOther(sp[1..], name, value, other);
      assert ([sp[0]] + Set(sp[1..], name, value))[1..] == Set(sp[1..], name, value);
    }
  }
}
