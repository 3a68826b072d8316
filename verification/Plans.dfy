/** Implementation plans: phases of subtasks, the edits the job actions make to them, and the flat
    document order those edits follow. */
module Plans {

  /** A subtask's status text. Model-supplied plans may hold any text, hence Other, but never one of the known texts. */
  datatype AnyStatus = Blank | Pending | InProgress | Completed | Done | Stuck | Failed | Other(text: string)

  type Status = st: AnyStatus | st.Other? ==> !KnownStatus(st.text) witness Blank

  predicate KnownStatus(text: string) {
    text in ["", "pending", "in_progress", "completed", "done", "stuck", "failed"]
  }

  datatype Subtask = Subtask(id: string, status: Status)

  datatype AnyKind = Planning | Coding | Review | OtherKind(text: string)

  type Kind = kind: AnyKind | kind.OtherKind? ==> kind.text !in ["planning", "coding", "review"] witness Coding

  datatype Phase = Phase(number: int, kind: Kind, subtasks: seq<Subtask>)

  datatype Plan = Plan(status: string, planStatus: string, phases: seq<Phase>)

  predicate Open(st: Status) {
    st.Pending? || st.Blank? || st.InProgress?
  }

  predicate Finished(st: Status) {
    st.Completed? || st.Done?
  }

  // ---- document order ----

  /** One subtask in document order, with whether its phase is a coding phase. */
  datatype Item = Item(coding: bool, id: string, status: Status)

  function Items(ph: Phase): seq<Item> {
    seq(|ph.subtasks|, k requires 0 <= k < |ph.subtasks| =>
      Item(ph.kind.Coding?, ph.subtasks[k].id, ph.subtasks[k].status))
  }

  function Flat(phases: seq<Phase>): seq<Item> {
    if phases == [] then [] else Flat(phases[..|phases| - 1]) + Items(phases[|phases| - 1])
  }

  lemma {:induction false} FlatSnoc(phases: seq<Phase>, i: nat)
    requires i < |phases|
    ensures Flat(phases[..i + 1]) == Flat(phases[..i]) + Items(phases[i])
  {
    assert phases[..i + 1][..i] == phases[..i];
  }

  function DoneCount(flat: seq<Item>): nat {
    if flat == [] then 0
    else DoneCount(flat[..|flat| - 1]) + if Finished(flat[|flat| - 1].status) then 1 else 0
  }

  function OpenCount(flat: seq<Item>): nat {
    if flat == [] then 0
    else OpenCount(flat[..|flat| - 1]) + if Open(flat[|flat| - 1].status) then 1 else 0
  }

  lemma {:induction false} CountsBounded(flat: seq<Item>)
    ensures DoneCount(flat) + OpenCount(flat) <= |flat|
    ensures DoneCount(flat) == |flat| <==> forall i :: 0 <= i < |flat| ==> Finished(flat[i].status)
    ensures OpenCount(flat) == 0 <==> forall i :: 0 <= i < |flat| ==> !Open(flat[i].status)
    ensures DoneCount(flat) + OpenCount(flat) == |flat| <==>
            forall i :: 0 <= i < |flat| ==> Open(flat[i].status) || Finished(flat[i].status)
  {
    if flat == [] {
    } else {
      CountsBounded(flat[..|flat| - 1]);
    }
  }

  /** What is still to do, and what is counted as finished, by the status texts. */
  predicate ToDo(st: Status) {
    st == Pending || st == Blank || st == InProgress
  }

  predicate IsDone(st: Status) {
    st == Completed || st == Done
  }

  lemma {:induction false} StatusMeans(st: Status)
    ensures Open(st) <==> ToDo(st)
    ensures Finished(st) <==> IsDone(st)
  {}

  /** The counts, item by item: pending, blank and in-progress ones are open, completed and done ones finished. */
  lemma {:induction false} CountsByStatus(flat: seq<Item>, item: Item)
    ensures DoneCount([]) == 0 && OpenCount([]) == 0
    ensures DoneCount(flat + [item]) == DoneCount(flat) + if IsDone(item.status) then 1 else 0
    ensures OpenCount(flat + [item]) == OpenCount(flat) + if ToDo(item.status) then 1 else 0
  {
    assert (flat + [item])[..|flat|] == flat;
  }

  lemma {:induction false} CountsAppend(a: seq<Item>, b: seq<Item>)
    ensures DoneCount(a + b) == DoneCount(a) + DoneCount(b)
    ensures OpenCount(a + b) == OpenCount(a) + OpenCount(b)
  {
    if b == [] {
      assert a + b == a;
    } else {
      CountsAppend(a, b[..|b| - 1]);
      assert (a + b)[..|a + b| - 1] == a + b[..|b| - 1];
    }
  }

  /** One phase of `countPlanSubtasks`. */
  method CountDone(ph: Phase) returns (done: nat)
    ensures done == DoneCount(Items(ph))
  {
    done := 0;
    for k := 0 to |ph.subtasks|
      invariant done == DoneCount(Items(ph)[..k])
    {
      assert Items(ph)[..k + 1][..k] == Items(ph)[..k];
      if Finished(ph.subtasks[k].status) {
        done := done + 1;
      }
    }
    assert Items(ph)[..|Items(ph)|] == Items(ph);
  }

  /** `countPlanSubtasks`. */
  method CountPlanSubtasks(phases: seq<Phase>) returns (total: nat, done: nat)
    ensures total == |Flat(phases)| && done == DoneCount(Flat(phases))
  {
    assert Flat(phases[..0]) == [] && DoneCount([]) == 0;
    hide Flat;
    hide DoneCount;
    total, done := 0, 0;
    for i := 0 to |phases|
      invariant total == |Flat(phases[..i])| && done == DoneCount(Flat(phases[..i]))
    {
      FlatSnoc(phases, i);
      CountsAppend(Flat(phases[..i]), Items(phases[i]));
      var inPhase := CountDone(phases[i]);
      total, done := total + |phases[i].subtasks|, done + inPhase;
    }
    assert phases[..|phases|] == phases;
  }

  /** One phase of `countPendingSubtasks`. */
  method CountOpen(ph: Phase) returns (n: nat)
    ensures n == OpenCount(Items(ph))
  {
    n := 0;
    for k := 0 to |ph.subtasks|
      invariant n == OpenCount(Items(ph)[..k])
    {
      assert Items(ph)[..k + 1][..k] == Items(ph)[..k];
      if Open(ph.subtasks[k].status) {
        n := n + 1;
      }
    }
    assert Items(ph)[..|Items(ph)|] == Items(ph);
  }

  /** `countPendingSubtasks`. */
  method CountPendingSubtasks(phases: seq<Phase>) returns (n: nat)
    ensures n == OpenCount(Flat(phases))
  {
    assert Flat(phases[..0]) == [] && OpenCount([]) == 0;
    hide Flat;
    hide OpenCount;
    n := 0;
    for i := 0 to |phases|
      invariant n == OpenCount(Flat(phases[..i]))
    {
      FlatSnoc(phases, i);
      CountsAppend(Flat(phases[..i]), Items(phases[i]));
      var inPhase := CountOpen(phases[i]);
      n := n + inPhase;
    }
    assert phases[..|phases|] == phases;
  }

  // ---- the coding predicates of the self-chaining session ----

  predicate CodingLeft(flat: seq<Item>) {
    exists i :: 0 <= i < |flat| && flat[i].coding && !flat[i].status.Completed? && !flat[i].status.Stuck?
  }

  predicate CodingComplete(flat: seq<Item>) {
    && (exists i :: 0 <= i < |flat| && flat[i].coding)
    && (forall i :: 0 <= i < |flat| && flat[i].coding ==> flat[i].status.Completed?)
  }

  /** `hasPendingCodingSubtasks`. */
  method HasPendingCodingSubtasks(phases: seq<Phase>) returns (pending: bool)
    ensures pending == CodingLeft(Flat(phases))
  {
    for i := 0 to |phases|
      invariant !CodingLeft(Flat(phases[..i]))
    {
      FlatSnoc(phases, i);
      ghost var before, items := Flat(phases[..i]), Items(phases[i]);
      if phases[i].kind.Coding? {
        for k := 0 to |phases[i].subtasks|
          invariant !CodingLeft(before + items[..k])
        {
          var st := phases[i].subtasks[k].status;
          if !(st.Completed? || st.Stuck?) {
            FlatAt(phases, i, k);
            return true;
          }
          assert before + items[..k + 1] == (before + items[..k]) + [items[k]];
        }
        assert items[..|items|] == items;
      }
    }
    assert phases[..|phases|] == phases;
    return false;
  }

  /** `allCodingSubtasksComplete`. */
  method AllCodingSubtasksComplete(phases: seq<Phase>) returns (complete: bool)
    ensures complete == CodingComplete(Flat(phases))
  {
    var found := false;
    for i := 0 to |phases|
      invariant found == exists j :: 0 <= j < |Flat(phases[..i])| && Flat(phases[..i])[j].coding
      invariant forall j :: 0 <= j < |Flat(phases[..i])| && Flat(phases[..i])[j].coding
                  ==> Flat(phases[..i])[j].status.Completed?
    {
      FlatSnoc(phases, i);
      ghost var before, items := Flat(phases[..i]), Items(phases[i]);
      if phases[i].kind.Coding? {
        for k := 0 to |phases[i].subtasks|
          invariant found == (k > 0 || exists j :: 0 <= j < |before| && before[j].coding)
          invariant forall j :: 0 <= j < k ==> items[j].status.Completed?
        {
          found := true;
          var st := phases[i].subtasks[k].status;
          if !st.Completed? {
            FlatAt(phases, i, k);
            return false;
          }
        }
        assert |items| > 0 ==> (before + items)[|before|] == items[0];
      }
      assert forall j :: 0 <= j < |before| ==> (before + items)[j] == before[j];
    }
    assert phases[..|phases|] == phases;
    return found;
  }

  /** Subtask `k` of phase `i` stands at its offset in document order. */
  lemma {:induction false} FlatAt(phases: seq<Phase>, i: nat, k: nat)
    requires i < |phases| && k < |phases[i].subtasks|
    ensures |Flat(phases[..i])| + k < |Flat(phases)|
    ensures Flat(phases)[|Flat(phases[..i])| + k] == Items(phases[i])[k]
  {
    var n := |phases| - 1;
    if i == n {
    } else {
      FlatAt(phases[..n], i, k);
      assert phases[..n][..i] == phases[..i];
    }
  }

  // ---- the first open subtask ----

  function FirstIn(subtasks: seq<Subtask>): (k: nat)
    ensures k <= |subtasks|
    ensures k < |subtasks| ==> Open(subtasks[k].status)
    ensures forall j :: 0 <= j < k ==> !Open(subtasks[j].status)
  {
    if subtasks == [] || Open(subtasks[0].status) then 0 else 1 + FirstIn(subtasks[1..])
  }

  function FirstPhase(phases: seq<Phase>): (i: nat)
    ensures i <= |phases|
    ensures i < |phases| ==> FirstIn(phases[i].subtasks) < |phases[i].subtasks|
    ensures forall j :: 0 <= j < i ==> FirstIn(phases[j].subtasks) == |phases[j].subtasks|
  {
    if phases == [] || FirstIn(phases[0].subtasks) < |phases[0].subtasks| then 0 else 1 + FirstPhase(phases[1..])
  }

  /** The id of the first open subtask, or the empty text when there is none. */
  function FirstOpenId(phases: seq<Phase>): string {
    var i := FirstPhase(phases);
    if i == |phases| then "" else phases[i].subtasks[FirstIn(phases[i].subtasks)].id
  }

  function SetStatus(phases: seq<Phase>, i: nat, k: nat, st: Status): seq<Phase>
    requires i < |phases| && k < |phases[i].subtasks|
  {
    phases[i := phases[i].(subtasks := phases[i].subtasks[k := phases[i].subtasks[k].(status := st)])]
  }

  /** The phases with the first open subtask given a new status. */
  function MarkFirst(phases: seq<Phase>, st: Status): seq<Phase> {
    var i := FirstPhase(phases);
    if i == |phases| then phases else SetStatus(phases, i, FirstIn(phases[i].subtasks), st)
  }

  lemma {:induction false} FirstAt(phases: seq<Phase>, i: nat, k: nat, st: Status)
    requires i < |phases| && k < |phases[i].subtasks| && Open(phases[i].subtasks[k].status)
    requires forall j :: 0 <= j < i ==> FirstIn(phases[j].subtasks) == |phases[j].subtasks|
    requires forall j :: 0 <= j < k ==> !Open(phases[i].subtasks[j].status)
    ensures MarkFirst(phases, st) == SetStatus(phases, i, k, st)
    ensures FirstOpenId(phases) == phases[i].subtasks[k].id
  {
    hide SetStatus;
    assert FirstIn(phases[i].subtasks) == k;
    assert FirstPhase(phases) == i;
  }

  /** The double loop shared by implementation, mark-stuck and cancel. */
  method MarkFirstOpen(phases: seq<Phase>, st: Status) returns (marked: seq<Phase>, id: string)
    ensures marked == MarkFirst(phases, st) && id == FirstOpenId(phases)
  {
    marked, id := phases, "";
    for i := 0 to |phases|
      invariant marked == phases && id == ""
      invariant forall j :: 0 <= j < i ==> FirstIn(phases[j].subtasks) == |phases[j].subtasks|
    {
      for k := 0 to |phases[i].subtasks|
        invariant marked == phases && id == ""
        invariant forall j :: 0 <= j < k ==> !Open(phases[i].subtasks[j].status)
      {
        if Open(phases[i].subtasks[k].status) {
          FirstAt(phases, i, k, st);
          marked := SetStatus(phases, i, k, st);
          id := phases[i].subtasks[k].id;
          return;
        }
      }
    }
  }

  /** The position of the first open item, or the length. */
  function First(flat: seq<Item>): (n: nat)
    ensures n <= |flat|
    ensures n < |flat| ==> Open(flat[n].status)
    ensures forall j :: 0 <= j < n ==> !Open(flat[j].status)
  {
    if flat == [] || Open(flat[0].status) then 0 else 1 + First(flat[1..])
  }

  predicate SameShape(a: seq<Phase>, b: seq<Phase>) {
    && |a| == |b|
    && (forall i :: 0 <= i < |a| ==>
          a[i].number == b[i].number && a[i].kind == b[i].kind && |a[i].subtasks| == |b[i].subtasks|)
    && (forall i, k :: 0 <= i < |a| && 0 <= k < |a[i].subtasks| ==> a[i].subtasks[k].id == b[i].subtasks[k].id)
  }

  lemma {:induction false} SetShape(phases: seq<Phase>, i: nat, k: nat, st: Status)
    requires i < |phases| && k < |phases[i].subtasks|
    ensures SameShape(phases, SetStatus(phases, i, k, st))
  {}

  lemma {:induction false} ItemsSet(ph: Phase, k: nat, st: Status)
    requires k < |ph.subtasks|
    ensures Items(ph.(subtasks := ph.subtasks[k := ph.subtasks[k].(status := st)]))
            == Items(ph)[k := Items(ph)[k].(status := st)]
  {}

  lemma {:induction false} FlatSetLast(phases: seq<Phase>, k: nat, st: Status)
    requires phases != [] && k < |phases[|phases| - 1].subtasks|
    ensures var m := |phases| - 1; var n := |Flat(phases[..m])| + k;
            && n < |Flat(phases)|
            && Flat(SetStatus(phases, m, k, st)) == Flat(phases)[n := Flat(phases)[n].(status := st)]
  {
    var m := |phases| - 1;
    var front, last := Flat(phases[..m]), Items(phases[m]);
    assert SetStatus(phases, m, k, st)[..m] == phases[..m];
    ItemsSet(phases[m], k, st);
    assert (front + last)[|front| + k := last[k].(status := st)] == front + last[k := last[k].(status := st)];
  }

  lemma {:induction false} SetFront(phases: seq<Phase>, i: nat, k: nat, st: Status)
    requires i < |phases| - 1 && k < |phases[i].subtasks|
    ensures SetStatus(phases, i, k, st) == SetStatus(phases[..|phases| - 1], i, k, st) + [phases[|phases| - 1]]
  {}

  lemma {:induction false} FlatSet(phases: seq<Phase>, i: nat, k: nat, st: Status)
    requires i < |phases| && k < |phases[i].subtasks|
    ensures var n := |Flat(phases[..i])| + k;
            && n < |Flat(phases)|
            && Flat(SetStatus(phases, i, k, st)) == Flat(phases)[n := Flat(phases)[n].(status := st)]
  {
    hide Items;
    var m := |phases| - 1;
    if i == m {
      FlatSetLast(phases, k, st);
    } else {
      FlatSet(phases[..m], i, k, st);
      assert phases[..m][..i] == phases[..i];
      SetFront(phases, i, k, st);
      var marked := SetStatus(phases[..m], i, k, st);
      assert (marked + [phases[m]])[..m] == marked;
    }
  }

  lemma {:induction false} NoneOpen(phases: seq<Phase>)
    requires forall j :: 0 <= j < |phases| ==> FirstIn(phases[j].subtasks) == |phases[j].subtasks|
    ensures forall j :: 0 <= j < |Flat(phases)| ==> !Open(Flat(phases)[j].status)
  {
    if phases == [] {
    } else {
      NoneOpen(phases[..|phases| - 1]);
    }
  }

  lemma {:induction false} FirstAfter(flat: seq<Item>, before: seq<Item>, items: seq<Item>, k: nat)
    requires before + items <= flat && k < |items| && Open(items[k].status)
    requires forall j :: 0 <= j < |before| ==> !Open(before[j].status)
    requires forall j :: 0 <= j < k ==> !Open(items[j].status)
    ensures First(flat) == |before| + k
  {
    forall j | 0 <= j < |before| + k ensures !Open(flat[j].status) {
      assert flat[j] == (before + items)[j];
    }
    assert flat[|before| + k] == (before + items)[|before| + k];
    FirstUnique(flat, |before| + k);
  }

  lemma {:induction false} FirstInFlat(phases: seq<Phase>)
    requires FirstPhase(phases) < |phases|
    ensures var i := FirstPhase(phases);
            First(Flat(phases)) == |Flat(phases[..i])| + FirstIn(phases[i].subtasks) < |Flat(phases)|
  {
    var i := FirstPhase(phases);
    var k, before, items := FirstIn(phases[i].subtasks), Flat(phases[..i]), Items(phases[i]);
    NoneOpen(phases[..i]);
    FlatSnoc(phases, i);
    FlatPrefix(phases, i + 1);
    FirstAfter(Flat(phases), before, items, k);
  }

  /** What marking does in document order: exactly the first open item changes, and only its status;
      the phases keep their shape. */
  lemma {:induction false} MarkFirstFlat(phases: seq<Phase>, st: Status)
    ensures SameShape(phases, MarkFirst(phases, st))
    ensures var flat := Flat(phases); var n := First(flat);
            if n < |flat| then
              && Flat(MarkFirst(phases, st)) == flat[n := flat[n].(status := st)]
              && FirstOpenId(phases) == flat[n].id
            else MarkFirst(phases, st) == phases && FirstOpenId(phases) == ""
  {
    hide Flat;
    hide SetStatus;
    hide Open;
    hide First;
    hide FirstIn;
    var i := FirstPhase(phases);
    if i == |phases| {
      NoneOpen(phases);
    } else {
      var k := FirstIn(phases[i].subtasks);
      FirstInFlat(phases);
      SetShape(phases, i, k, st);
      FlatSet(phases, i, k, st);
      FlatAt(phases, i, k);
    }
  }

  lemma {:induction false} FirstUnique(flat: seq<Item>, n: nat)
    requires n < |flat| && Open(flat[n].status)
    requires forall j :: 0 <= j < n ==> !Open(flat[j].status)
    ensures First(flat) == n
  {
    var f := First(flat);
    assert f <= n;
    assert f < |flat| && Open(flat[f].status);
  }

  lemma {:induction false} FlatPrefix(phases: seq<Phase>, i: nat)
    requires i <= |phases|
    ensures Flat(phases[..i]) <= Flat(phases)
  {
    var n := |phases| - 1;
    if i <= n {
      FlatPrefix(phases[..n], i);
      assert phases[..n][..i] == phases[..i];
    } else {
      assert phases[..i] == phases;
    }
  }

  // ---- recover ----

  function RecoveredStatus(st: Status): Status {
    if st.Stuck? || st.Failed? || st.InProgress? then Pending else st
  }

  function RecoveredPhase(ph: Phase): Phase {
    ph.(subtasks := seq(|ph.subtasks|, k requires 0 <= k < |ph.subtasks| =>
          ph.subtasks[k].(status := RecoveredStatus(ph.subtasks[k].status))))
  }

  function Recovered(phases: seq<Phase>): seq<Phase> {
    seq(|phases|, i requires 0 <= i < |phases| => RecoveredPhase(phases[i]))
  }

  method ResetPhase(ph: Phase) returns (out: Phase, recovered: seq<string>)
    ensures out == RecoveredPhase(ph)
    ensures recovered == [] <==> out == ph
  {
    var subtasks: seq<Subtask> := [];
    recovered := [];
    for k := 0 to |ph.subtasks|
      invariant subtasks == RecoveredPhase(ph).subtasks[..k]
      invariant recovered == [] <==> forall j :: 0 <= j < k ==> subtasks[j] == ph.subtasks[j]
    {
      var subtask := ph.subtasks[k];
      if subtask.status.Stuck? || subtask.status.Failed? || subtask.status.InProgress? {
        subtask := subtask.(status := Pending);
        recovered := recovered + [subtask.id];
      }
      subtasks := subtasks + [subtask];
    }
    out := ph.(subtasks := subtasks);
  }

  method ResetSubtasks(phases: seq<Phase>) returns (reset: seq<Phase>, recovered: seq<string>)
    ensures reset == Recovered(phases)
    ensures recovered == [] <==> reset == phases
  {
    reset, recovered := [], [];
    for i := 0 to |phases|
      invariant reset == Recovered(phases)[..i]
      invariant recovered == [] <==> reset == phases[..i]
    {
      var ph, ids := ResetPhase(phases[i]);
      ghost var before := reset;
      reset, recovered := reset + [ph], recovered + ids;
      assert reset[..i] == before && phases[..i + 1][..i] == phases[..i];
      assert reset == phases[..i + 1] <==> before == phases[..i] && ph == phases[i] by {
        assert reset[i] == ph && phases[..i + 1][i] == phases[i];
      }
    }
    assert phases[..|phases|] == phases;
  }

  /** A status that recovery resets. */
  predicate ToReset(st: Status) {
    st == Stuck || st == Failed || st == InProgress
  }

  /** The item as recovery leaves it: stuck, failed and in-progress ones are pending again, all others as they were. */
  predicate RecoveredItem(a: Item, b: Item) {
    if ToReset(a.status) then b == Item(a.coding, a.id, Pending) else b == a
  }

  /** Recovery changes a plan exactly if it has something to reset. */
  lemma {:induction false} RecoveryChanges(phases: seq<Phase>)
    ensures Recovered(phases) == phases <==> forall j :: 0 <= j < |Flat(phases)| ==> !ToReset(Flat(phases)[j].status)
  {
    RecoveredByStatus(phases);
    if forall j :: 0 <= j < |Flat(phases)| ==> !ToReset(Flat(phases)[j].status) {
      NothingReset(phases);
    }
  }

  lemma {:induction false} NothingReset(phases: seq<Phase>)
    requires forall j :: 0 <= j < |Flat(phases)| ==> !ToReset(Flat(phases)[j].status)
    ensures Recovered(phases) == phases
  {
    if phases == [] {
    } else {
      var n := |phases| - 1;
      var front, items := Flat(phases[..n]), Items(phases[n]);
      forall j | 0 <= j < |front| ensures !ToReset(front[j].status) {
        assert Flat(phases)[j] == front[j];
      }
      forall k | 0 <= k < |items| ensures !ToReset(phases[n].subtasks[k].status) {
        assert Flat(phases)[|front| + k] == items[k];
      }
      NothingReset(phases[..n]);
      assert RecoveredPhase(phases[n]) == phases[n];
      assert Recovered(phases) == Recovered(phases[..n]) + [phases[n]];
    }
  }

  lemma {:induction false} RecoveredItems(a: Item)
    ensures RecoveredItem(a, a.(status := RecoveredStatus(a.status)))
  {}

  /** Recovery resets exactly the stuck, failed and in-progress subtasks to pending. */
  lemma {:induction false} RecoveredByStatus(phases: seq<Phase>)
    ensures var flat, out := Flat(phases), Flat(Recovered(phases));
            |out| == |flat| && forall j :: 0 <= j < |flat| ==> RecoveredItem(flat[j], out[j])
  {
    RecoveredFlat(phases);
    var flat := Flat(phases);
    hide Flat;
    hide RecoveredItem;
    hide RecoveredStatus;
    forall j | 0 <= j < |flat| ensures RecoveredItem(flat[j], flat[j].(status := RecoveredStatus(flat[j].status))) {
      RecoveredItems(flat[j]);
    }
  }

  lemma {:induction false} RecoveredFlat(phases: seq<Phase>)
    ensures SameShape(phases, Recovered(phases))
    ensures |Flat(Recovered(phases))| == |Flat(phases)|
    ensures forall j :: 0 <= j < |Flat(phases)| ==>
              Flat(Recovered(phases))[j] == Flat(phases)[j].(status := RecoveredStatus(Flat(phases)[j].status))
  {
    if phases == [] {
    } else {
      var n := |phases| - 1;
      RecoveredFlat(phases[..n]);
      assert Recovered(phases)[..n] == Recovered(phases[..n]);
    }
  }

  /** Marking by status: the first subtask in document order that is pending, blank or in progress gets the new status
      and gives its id; nothing else changes, and nothing at all where there is none. */
  lemma {:induction false} MarkFirstByStatus(phases: seq<Phase>, st: Status)
    ensures var flat, out := Flat(phases), Flat(MarkFirst(phases, st));
            if forall i :: 0 <= i < |flat| ==> !ToDo(flat[i].status) then
              MarkFirst(phases, st) == phases && FirstOpenId(phases) == ""
            else exists n :: 0 <= n < |flat| && ToDo(flat[n].status)
                             && (forall i :: 0 <= i < n ==> !ToDo(flat[i].status))
                             && out == flat[n := Item(flat[n].coding, flat[n].id, st)]
                             && FirstOpenId(phases) == flat[n].id
  {
    MarkFirstFlat(phases, st);
    var flat := Flat(phases);
    forall i | 0 <= i < |flat| ensures Open(flat[i].status) <==> ToDo(flat[i].status) {
      StatusMeans(flat[i].status);
    }
    hide Flat;
    hide MarkFirst;
    hide FirstOpenId;
    hide ToDo;
    hide Open;
    var n := First(flat);
    assert n < |flat| ==> ToDo(flat[n].status);
  }

  // ---- skip to a phase ----

  /** A phase's number; an unnumbered phase counts by its place. */
  function PhaseNumber(phases: seq<Phase>, i: nat): int
    requires i < |phases|
  {
    if phases[i].number == 0 then i + 1 else phases[i].number
  }

  function CompletedPhase(ph: Phase): Phase {
    ph.(subtasks := seq(|ph.subtasks|, k requires 0 <= k < |ph.subtasks| =>
          if Finished(ph.subtasks[k].status) then ph.subtasks[k] else ph.subtasks[k].(status := Completed)))
  }

  function SkippedTo(phases: seq<Phase>, target: int): seq<Phase> {
    seq(|phases|, i requires 0 <= i < |phases| =>
      if PhaseNumber(phases, i) < target then CompletedPhase(phases[i]) else phases[i])
  }

  predicate HasPhase(phases: seq<Phase>, target: int) {
    exists i :: 0 <= i < |phases| && PhaseNumber(phases, i) == target
  }

  method CompletePhase(ph: Phase) returns (out: Phase)
    ensures out == CompletedPhase(ph)
  {
    var subtasks: seq<Subtask> := [];
    for k := 0 to |ph.subtasks|
      invariant subtasks == CompletedPhase(ph).subtasks[..k]
    {
      var subtask := ph.subtasks[k];
      if !Finished(subtask.status) {
        subtask := subtask.(status := Completed);
      }
      subtasks := subtasks + [subtask];
    }
    out := ph.(subtasks := subtasks);
  }

  method CompleteBefore(phases: seq<Phase>, target: int) returns (skipped: seq<Phase>, found: bool)
    ensures skipped == SkippedTo(phases, target)
    ensures found == HasPhase(phases, target)
    ensures forall i :: 0 <= i < |phases| && PhaseNumber(phases, i) >= target ==> skipped[i] == phases[i]
    ensures forall i, k :: 0 <= i < |phases| && PhaseNumber(phases, i) < target && 0 <= k < |skipped[i].subtasks| ==>
              Finished(skipped[i].subtasks[k].status)
  {
    skipped, found := [], false;
    for i := 0 to |phases|
      invariant skipped == SkippedTo(phases, target)[..i]
      invariant found == exists j :: 0 <= j < i && PhaseNumber(phases, j) == target
    {
      var ph := phases[i];
      var num := PhaseNumber(phases, i);
      if num == target {
        found := true;
      }
      if num < target {
        ph := CompletePhase(ph);
      }
      skipped := skipped + [ph];
    }
  }

  /** The item as it was, or completed from an unfinished status. */
  predicate SkippedItem(a: Item, b: Item) {
    a == b || (!Finished(a.status) && b == a.(status := Completed))
  }

  lemma {:induction false} SkippedShape(phases: seq<Phase>, skipped: seq<Phase>)
    requires |phases| == |skipped|
    requires forall i :: 0 <= i < |phases| ==> skipped[i] == phases[i] || skipped[i] == CompletedPhase(phases[i])
    ensures SameShape(phases, skipped)
  {}

  predicate SkippedList(a: seq<Item>, b: seq<Item>) {
    |a| == |b| && forall k :: 0 <= k < |a| ==> SkippedItem(a[k], b[k])
  }

  lemma {:induction false} SkippedItems(ph: Phase, out: Phase)
    requires out == ph || out == CompletedPhase(ph)
    ensures SkippedList(Items(ph), Items(out))
  {}

  lemma {:induction false} SkippedAppend(a: seq<Item>, b: seq<Item>, c: seq<Item>, d: seq<Item>)
    requires SkippedList(a, b) && SkippedList(c, d)
    ensures SkippedList(a + c, b + d)
  {
    hide SkippedItem;
  }

  lemma {:induction false} SkippedFlat(phases: seq<Phase>, skipped: seq<Phase>)
    requires |phases| == |skipped|
    requires forall i :: 0 <= i < |phases| ==> skipped[i] == phases[i] || skipped[i] == CompletedPhase(phases[i])
    ensures SameShape(phases, skipped)
    ensures |Flat(skipped)| == |Flat(phases)|
    ensures forall j :: 0 <= j < |Flat(phases)| ==> SkippedItem(Flat(phases)[j], Flat(skipped)[j])
  {
    SkippedShape(phases, skipped);
    hide SameShape;
    hide Items;
    hide CompletedPhase;
    hide SkippedItem;
    if phases == [] {
    } else {
      var n := |phases| - 1;
      SkippedFlat(phases[..n], skipped[..n]);
      SkippedItems(phases[n], skipped[n]);
      SkippedAppend(Flat(phases[..n]), Flat(skipped[..n]), Items(phases[n]), Items(skipped[n]));
    }
  }

  /** The number of the phase at this place: its own, or its place for an unnumbered one. */
  predicate Numbered(phases: seq<Phase>, i: nat, number: int)
    requires i < |phases|
  {
    if phases[i].number != 0 then number == phases[i].number else number == i + 1
  }

  /** The skip, subtask by subtask: in a phase numbered below the target all are finished, those that were not are
      completed, and the others are as they were, as are all phases from the target on. */
  lemma {:induction false} SkipByNumber(phases: seq<Phase>, target: int, i: nat, number: int)
    requires i < |phases| && Numbered(phases, i, number)
    ensures var out := SkippedTo(phases, target);
            && |out| == |phases| && (number >= target ==> out[i] == phases[i])
            && (number < target ==>
                  && out[i] == phases[i].(subtasks := out[i].subtasks) && |out[i].subtasks| == |phases[i].subtasks|
                  && forall k :: 0 <= k < |phases[i].subtasks| ==>
                       var a, b := phases[i].subtasks[k], out[i].subtasks[k];
                       if IsDone(a.status) then b == a else b == Subtask(a.id, Completed))
  {
    forall k | 0 <= k < |phases[i].subtasks| ensures Finished(phases[i].subtasks[k].status)
                                                     <==> IsDone(phases[i].subtasks[k].status)
    {
      StatusMeans(phases[i].subtasks[k].status);
    }
  }

  lemma {:induction false} HasPhaseNumbered(phases: seq<Phase>, target: int)
    ensures HasPhase(phases, target) <==> exists i :: 0 <= i < |phases| && Numbered(phases, i, target)
  {
    forall i | 0 <= i < |phases| ensures PhaseNumber(phases, i) == target <==> Numbered(phases, i, target) {}
  }
}
