/** Completing the open subtasks of a plan one after another, described all at once: after `k` steps
    exactly the `k` first open items are completed. */
module Drains {
  import opened Columns
  import opened Plans
  import opened TaskJobs

  /** The items after `k` completions: those open items that had fewer than `k` open ones before them. */
  function Drained(flat: seq<Item>, k: nat): seq<Item> {
    seq(|flat|, i requires 0 <= i < |flat| =>
      if Open(flat[i].status) && OpenCount(flat[..i]) < k then flat[i].(status := Completed) else flat[i])
  }

  /** The first open item that has no id, or the length. Nothing is ever completed from there on. */
  function FirstNameless(flat: seq<Item>): (n: nat)
    ensures n <= |flat|
    ensures n < |flat| ==> Open(flat[n].status) && flat[n].id == ""
    ensures forall i :: 0 <= i < n && Open(flat[i].status) ==> flat[i].id != ""
  {
    if flat == [] || (Open(flat[0].status) && flat[0].id == "") then 0 else 1 + FirstNameless(flat[1..])
  }

  /** How many completions the plan allows. */
  function Drainable(flat: seq<Item>): nat {
    OpenCount(flat[..FirstNameless(flat)])
  }

  lemma {:induction false} OpenCountMonotone(flat: seq<Item>, i: nat, j: nat)
    requires i <= j <= |flat|
    ensures OpenCount(flat[..i]) <= OpenCount(flat[..j])
    ensures i < j && Open(flat[i].status) ==> OpenCount(flat[..i]) < OpenCount(flat[..j])
  {
    if i == j {
    } else {
      OpenCountMonotone(flat, i, j - 1);
      assert flat[..j][..j - 1] == flat[..j - 1];
    }
  }

  lemma {:induction false} DrainableBound(flat: seq<Item>)
    ensures Drainable(flat) <= OpenCount(flat)
    ensures Drainable(flat) == OpenCount(flat) <==>
            forall i :: 0 <= i < |flat| && Open(flat[i].status) ==> flat[i].id != ""
  {
    var n := FirstNameless(flat);
    assert flat[..|flat|] == flat;
    OpenCountMonotone(flat, n, |flat|);
  }

  /** The first open item that is left: the one with exactly `k` open items before it. */
  lemma {:induction false} ItemOfRank(flat: seq<Item>, k: nat) returns (j: nat)
    requires k < OpenCount(flat)
    ensures j < |flat| && Open(flat[j].status) && OpenCount(flat[..j]) == k
  {
    var n := |flat| - 1;
    if OpenCount(flat[..n]) == k {
      j := n;
    } else {
      j := ItemOfRank(flat[..n], k);
      assert flat[..n][..j] == flat[..j];
    }
  }

  lemma {:induction false} DrainOne(flat: seq<Item>, k: nat, j: nat)
    requires j < |flat| && Open(flat[j].status) && OpenCount(flat[..j]) == k
    ensures First(Drained(flat, k)) == j
    ensures Drained(flat, k)[j := Drained(flat, k)[j].(status := Completed)] == Drained(flat, k + 1)
    ensures Drained(flat, k)[j] == flat[j]
  {
    var cur := Drained(flat, k);
    forall i | 0 <= i < j ensures !Open(cur[i].status) {
      OpenCountMonotone(flat, i, j);
    }
    FirstUnique(cur, j);
    forall i | 0 <= i < |flat|
      ensures Drained(flat, k + 1)[i] == if i == j then flat[i].(status := Completed) else cur[i]
    {
      if i < j {
        OpenCountMonotone(flat, i, j);
      } else if j < i {
        OpenCountMonotone(flat, j, i);
      }
    }
  }

  /** Its id is blank exactly when the plan allows no further completion. */
  lemma {:induction false} NameOfRank(flat: seq<Item>, k: nat, j: nat)
    requires j < |flat| && Open(flat[j].status) && OpenCount(flat[..j]) == k
    requires k <= Drainable(flat)
    ensures flat[j].id == "" <==> k == Drainable(flat)
  {
    var n := FirstNameless(flat);
    if j < n {
      OpenCountMonotone(flat, j, n);
    } else if n < j {
      OpenCountMonotone(flat, n, j);
    }
  }

  /** With nothing open left to complete, draining has come to its end. */
  lemma {:induction false} NothingLeft(flat: seq<Item>, k: nat)
    requires OpenCount(flat) <= k
    ensures First(Drained(flat, k)) == |flat|
  {
    var cur := Drained(flat, k);
    forall i | 0 <= i < |flat| ensures !Open(cur[i].status) {
      if Open(flat[i].status) {
        assert flat[..|flat|] == flat;
        OpenCountMonotone(flat, i, |flat|);
      }
    }
  }

  lemma {:induction false} DrainedNone(flat: seq<Item>)
    ensures Drained(flat, 0) == flat
  {}

  /** Completions move items from open to finished and touch no others. */
  lemma {:induction false} DrainedCounts(flat: seq<Item>, k: nat)
    requires k <= OpenCount(flat)
    ensures DoneCount(Drained(flat, k)) == DoneCount(flat) + k
    ensures OpenCount(Drained(flat, k)) == OpenCount(flat) - k
  {
    if flat == [] {
    } else {
      var n := |flat| - 1;
      DrainedFront(flat, k);
      if k <= OpenCount(flat[..n]) {
        DrainedCounts(flat[..n], k);
      } else {
        DrainedCounts(flat[..n], k - 1);
        DrainedFull(flat[..n], k - 1, k);
      }
    }
  }

  lemma {:induction false} DrainedFront(flat: seq<Item>, k: nat)
    requires flat != []
    ensures Drained(flat, k)[..|flat| - 1] == Drained(flat[..|flat| - 1], k)
  {
    forall i | 0 <= i < |flat| - 1 ensures Drained(flat, k)[i] == Drained(flat[..|flat| - 1], k)[i] {
      assert flat[..|flat| - 1][..i] == flat[..i];
    }
  }

  lemma {:induction false} DrainedFull(flat: seq<Item>, k: nat, more: nat)
    requires OpenCount(flat) <= k <= more
    ensures Drained(flat, k) == Drained(flat, more)
  {
    forall i | 0 <= i < |flat| ensures Drained(flat, k)[i] == Drained(flat, more)[i] {
      if Open(flat[i].status) {
        assert flat[..|flat|] == flat;
        OpenCountMonotone(flat, i, |flat|);
      }
    }
  }

  // ---- implementation steps on a partly drained plan ----

  /** An implementation step completes the next open subtask of the document, as long as the plan allows one. */
  lemma {:induction false} StepDrains(t: Task, flat: seq<Item>, k: nat, keepRunning: bool)
    requires Flat(t.plan.phases) == Drained(flat, k) && k < Drainable(flat) && !AwaitsApproval(t)
    ensures FirstOpenId(t.plan.phases) != "" && ImplementOutcome(t).Advanced?
    ensures var t' := Implement(t, keepRunning);
            && Flat(t'.plan.phases) == Drained(flat, k + 1) && SameShape(t.plan.phases, t'.plan.phases)
            && t'.column == (if DoneCount(flat) + k + 1 == |flat| then Column.Review else Column.InProgress)
            && t'.progress.paused == t.progress.paused && !AwaitsApproval(t')
  {
    hide Flat;
    hide MarkFirst;
    hide SameShape;
    hide DoneCount;
    hide OpenCount;
    DrainableBound(flat);
    MarkFirstFlat(t.plan.phases, Completed);
    FlatNone();
    var j := ItemOfRank(flat, k);
    DrainOne(flat, k, j);
    NameOfRank(flat, k, j);
    DrainedCounts(flat, k + 1);
    CountsBounded(Drained(flat, k + 1));
    assert FirstOpenId(t.plan.phases) == flat[j].id;
  }

  lemma {:induction false} FlatNone()
    ensures Flat([]) == []
  {}

  /** When no more completions are allowed, the first open id reads as blank. */
  lemma {:induction false} StepsEnd(phases: seq<Phase>, flat: seq<Item>)
    requires Flat(phases) == Drained(flat, Drainable(flat))
    ensures FirstOpenId(phases) == ""
  {
    var k := Drainable(flat);
    DrainableBound(flat);
    MarkFirstFlat(phases, Completed);
    if k < OpenCount(flat) {
      var j := ItemOfRank(flat, k);
      DrainOne(flat, k, j);
      NameOfRank(flat, k, j);
    } else {
      NothingLeft(flat, k);
    }
  }
}
