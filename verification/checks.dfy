/**
 * A form validator written as a chain of early returns, `if (!ok1) return msg1; if
 * (!ok2) return msg2; ...; return null`, read as a sequence of checks.
 */
module Checks {
  import opened Wrappers

  /** One check: whether it passes, and the message returned when it does not. */
  datatype Check = Check(passes: bool, message: string)

  /** The message of the first check that fails, or none when every check passes. */
  function FirstFailure(cs: seq<Check>): (r: Option<string>)
    ensures r.Some? ==> exists c :: c in cs && !c.passes && c.message == r.value
  {
    if cs == [] then None
    else if !cs[0].passes then Some(cs[0].message)
    else FirstFailure(cs[1..])
  }

  /** The chain checks its first check before the rest. */
  lemma FirstFailureCons(c: Check, rest: seq<Check>)
    ensures FirstFailure([c] + rest) == if !c.passes then Some(c.message) else FirstFailure(rest)
  {
    assert ([c] + rest)[1..] == rest;
  }

  /**
   * The result is none exactly when every check passes; otherwise it is the message of
   * a failing check before which every check passes.
   */
  lemma {:induction false} FirstFailureSpec(cs: seq<Check>)
    ensures FirstFailure(cs).None? <==> forall k :: 0 <= k < |cs| ==> cs[k].passes
    ensures FirstFailure(cs).Some? ==>
              exists k :: 0 <= k < |cs| && !cs[k].passes && cs[k].message == FirstFailure(cs).value
                          && forall j :: 0 <= j < k ==> cs[j].passes
  {
    if cs != [] && cs[0].passes {
      var rest := cs[1..];
      FirstFailureSpec(rest);
      if FirstFailure(rest).Some? {
        var k :| 0 <= k < |rest| && !rest[k].passes && rest[k].message == FirstFailure(rest).value
                 && forall j :: 0 <= j < k ==> rest[j].passes;
        assert !cs[k + 1].passes && cs[k + 1].message == FirstFailure(cs).value;
        forall j | 0 <= j < k + 1 ensures cs[j].passes {
          if j > 0 { assert cs[j] == rest[j - 1]; }
        }
      } else {
        forall k | 0 <= k < |cs| ensures cs[k].passes {
          if k > 0 { assert cs[k] == rest[k - 1]; }
        }
      }
    }
  }

  /** When check `k` is the first to fail, its message is the result. */
  lemma FirstFailureAt(cs: seq<Check>, k: int)
    requires 0 <= k < |cs| && !cs[k].passes
    requires forall j :: 0 <= j < k ==> cs[j].passes
    ensures FirstFailure(cs) == Some(cs[k].message)
  {
    FirstFailureSpec(cs);
    var r := FirstFailure(cs);
    var k' :| 0 <= k' < |cs| && !cs[k'].passes && cs[k'].message == r.value
              && forall j :: 0 <= j < k' ==> cs[j].passes;
    assert k' == k;
  }
}
