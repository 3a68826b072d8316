/** Positions picked from a list, in order. */
module Positions {

  predicate Increasing(at: seq<nat>) {
    forall m, n :: 0 <= m < n < |at| ==> at[m] < at[n]
  }

  lemma {:induction false} IncreasingCons(first: nat, rest: seq<nat>)
    requires Increasing(rest) && forall p :: p in rest ==> first < p
    ensures Increasing([first] + rest)
  {
    assert forall m :: 0 <= m < |rest| ==> rest[m] in rest;
  }

  lemma {:induction false} IncreasingSnoc(front: seq<nat>, last: nat)
    requires Increasing(front) && forall p :: p in front ==> p < last
    ensures Increasing(front + [last])
  {
    assert forall m :: 0 <= m < |front| ==> front[m] in front;
  }
}
