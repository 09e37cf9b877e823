/** Option and Result, and what is outstanding in a run, shared by every component of
    the model. */
module Basics {
  datatype Option<+T> = None | Some(value: T)

  datatype Result<+T, +E> = Ok(value: T) | Err(error: E)

  /** Some step raised something and none after it cleared it. */
  ghost predicate Outstanding(raised: seq<bool>, cleared: seq<bool>)
    requires |raised| == |cleared|
  {
    exists i :: 0 <= i < |raised| && raised[i] && forall j :: i < j < |cleared| ==> !cleared[j]
  }

  lemma OutstandingStep(raised: seq<bool>, cleared: seq<bool>, raises: bool, clears: bool)
    requires |raised| == |cleared|
    ensures Outstanding(raised + [raises], cleared + [clears]) <==>
            raises || (Outstanding(raised, cleared) && !clears)
  {
    var r, c, n := raised + [raises], cleared + [clears], |raised|;
    assert forall i :: 0 <= i < n ==> r[i] == raised[i] && c[i] == cleared[i];
    if Outstanding(r, c) {
      var i :| 0 <= i < |r| && r[i] && forall j :: i < j < |c| ==> !c[j];
      assert i < n ==> raised[i] && !c[n];
    }
    if raises {
      assert r[n];
    } else if Outstanding(raised, cleared) && !clears {
      var i :| 0 <= i < n && raised[i] && forall j :: i < j < n ==> !cleared[j];
      assert r[i];
    }
  }
}
