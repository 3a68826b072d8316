/** Merging the phases a model proposes into a roadmap: replace them all while no phase is bound to a
    milestone, otherwise update the ones of the same name and append the others. */
module RoadmapPhases {
  import opened Options
  import opened Text
  import opened Positions

  datatype Phase = Phase(id: string, name: string, description: string, order: int, status: string,
                         features: seq<string>, milestone: int, milestoneTitle: string, milestoneUrl: string)

  /** Names are compared trimmed and lower-cased. */
  function PhaseKey(ph: Phase): string {
    Key(ph.name)
  }

  predicate Named(ph: Phase) {
    Trim(ph.name) != ""
  }

  predicate HasBind(phases: seq<Phase>) {
    exists i :: 0 <= i < |phases| && phases[i].milestone > 0
  }

  /** The last phase with a key, or -1. */
  function FindLast(phases: seq<Phase>, key: string): (j: int)
    ensures -1 <= j < |phases|
    ensures j >= 0 ==> PhaseKey(phases[j]) == key
    ensures forall i :: j < i < |phases| ==> PhaseKey(phases[i]) != key
  {
    if phases == [] then -1
    else if PhaseKey(phases[|phases| - 1]) == key then |phases| - 1
    else FindLast(phases[..|phases| - 1], key)
  }

  predicate DistinctKeys(phases: seq<Phase>) {
    forall i, j :: 0 <= i < j < |phases| ==> PhaseKey(phases[i]) != PhaseKey(phases[j])
  }

  /** A merge in progress: the phases so far and how many fresh ids were drawn. */
  datatype Draw = Draw(phases: seq<Phase>, drawn: nat)

  /** The stream of fresh ids a run draws from; no id is blank. */
  type Ids = nat -> string

  ghost predicate Minting(ids: Ids) {
    forall n: nat :: ids(n) != ""
  }

  function OrDefault(s: string, default: string): string {
    if s == "" then default else s
  }

  function NewPhase(ph: Phase, id: string, order: int): Phase {
    Phase(id, Trim(ph.name), Trim(ph.description), if ph.order == 0 then order else ph.order,
          OrDefault(Trim(ph.status), "planned"), [], 0, "", "")
  }

  // ---- replacing: no phase is bound ----

  function ReplaceOne(existing: seq<Phase>, r: Draw, ph: Phase, i: nat, ids: Ids): Draw {
    if !Named(ph) || FindLast(r.phases, PhaseKey(ph)) >= 0 then r
    else
      var prev := FindLast(existing, PhaseKey(ph));
      var id := if Trim(ph.id) == "" && prev >= 0 then existing[prev].id else Trim(ph.id);
      if id == "" then Draw(r.phases + [NewPhase(ph, ids(r.drawn), i + 1)], r.drawn + 1)
      else Draw(r.phases + [NewPhase(ph, id, i + 1)], r.drawn)
  }

  function Replace(existing: seq<Phase>, incoming: seq<Phase>, ids: Ids): Draw {
    if incoming == [] then Draw([], 0)
    else
      var n := |incoming| - 1;
      ReplaceOne(existing, Replace(existing, incoming[..n], ids), incoming[n], n, ids)
  }

  // ---- updating: some phase is bound, or nothing proposed has a name ----

  function Updated(ph: Phase, prop: Phase): Phase {
    var p1 := if Trim(prop.description) != "" then ph.(description := Trim(prop.description)) else ph;
    var p2 := if prop.order > 0 then p1.(order := prop.order) else p1;
    if Trim(prop.status) != "" then p2.(status := Trim(prop.status)) else p2
  }

  function UpdateOne(r: Draw, ph: Phase, ids: Ids): Draw {
    if !Named(ph) then r
    else
      var j := FindLast(r.phases, PhaseKey(ph));
      if j >= 0 then r.(phases := r.phases[j := Updated(r.phases[j], ph)])
      else if Trim(ph.id) != "" then r.(phases := r.phases + [NewPhase(ph, Trim(ph.id), |r.phases| + 1)])
      else Draw(r.phases + [NewPhase(ph, ids(r.drawn), |r.phases| + 1)], r.drawn + 1)
  }

  function Update(existing: seq<Phase>, incoming: seq<Phase>, ids: Ids): Draw {
    if incoming == [] then Draw(existing, 0)
    else UpdateOne(Update(existing, incoming[..|incoming| - 1], ids), incoming[|incoming| - 1], ids)
  }

  /** `mergeRoadmapPhases`. */
  function Merge(existing: seq<Phase>, incoming: seq<Phase>, ids: Ids): Draw {
    if incoming == [] then Draw(existing, 0)
    else if !HasBind(existing) && Replace(existing, incoming, ids).phases != [] then
      Replace(existing, incoming, ids)
    else Update(existing, incoming, ids)
  }

  // ---- the merge as it runs ----

  ghost predicate ByName(byName: map<string, Phase>, phases: seq<Phase>) {
    forall key :: (key in byName <==> FindLast(phases, key) >= 0)
                  && (key in byName ==> byName[key] == phases[FindLast(phases, key)])
  }

  ghost predicate ByIndex(idxByName: map<string, int>, phases: seq<Phase>) {
    forall key :: (key in idxByName <==> FindLast(phases, key) >= 0)
                  && (key in idxByName ==> idxByName[key] == FindLast(phases, key))
  }

  method MergeRoadmapPhases(existing: seq<Phase>, incoming: seq<Phase>, ids: Ids) returns (out: seq<Phase>, drawn: nat)
    ensures Draw(out, drawn) == Merge(existing, incoming, ids)
  {
    if |incoming| == 0 {
      return existing, 0;
    }
    var hasBind := false;
    var byName: map<string, Phase> := map[];
    for i := 0 to |existing|
      invariant hasBind == HasBind(existing[..i])
      invariant ByName(byName, existing[..i])
    {
      assert existing[..i + 1][..i] == existing[..i];
      FindLastSnoc(existing[..i], existing[i]);
      assert existing[..i + 1] == existing[..i] + [existing[i]];
      byName := byName[PhaseKey(existing[i]) := existing[i]];
      if existing[i].milestone > 0 {
        hasBind := true;
        assert existing[..i + 1][i].milestone > 0;
      } else if HasBind(existing[..i + 1]) {
        var j :| 0 <= j < i + 1 && existing[..i + 1][j].milestone > 0;
        assert existing[..i][j].milestone > 0;
      }
    }
    assert existing[..|existing|] == existing;
    if !hasBind {
      out, drawn := ReplacePhases(existing, byName, incoming, ids);
      if |out| > 0 {
        return;
      }
    }
    out, drawn := UpdatePhases(existing, incoming, ids);
  }

  method ReplacePhases(ghost existing: seq<Phase>, byName: map<string, Phase>, incoming: seq<Phase>, ids: Ids)
      returns (out: seq<Phase>, drawn: nat)
    requires ByName(byName, existing)
    ensures Draw(out, drawn) == Replace(existing, incoming, ids)
  {
    hide FindLast;
    hide TrimLeft;
    hide TrimRight;
    out, drawn := [], 0;
    var seen: set<string> := {};
    for i := 0 to |incoming|
      invariant Draw(out, drawn) == Replace(existing, incoming[..i], ids)
      invariant forall key :: key in seen <==> FindLast(out, key) >= 0
    {
      assert incoming[..i + 1][..i] == incoming[..i];
      var ph := incoming[i];
      var name := Trim(ph.name);
      if name != "" && Lower(name) !in seen {
        seen := seen + {Lower(name)};
        var id := Trim(ph.id);
        if id == "" && Lower(name) in byName {
          id := byName[Lower(name)].id;
        }
        if id == "" {
          id := ids(drawn);
          drawn := drawn + 1;
        }
        var added := NewPhase(ph, id, i + 1);
        TrimSpec(ph.name);
        FindLastSnoc(out, added);
        out := out + [added];
      }
    }
    assert incoming[..|incoming|] == incoming;
  }

  method IndexPhases(phases: seq<Phase>) returns (idxByName: map<string, int>)
    ensures ByIndex(idxByName, phases)
  {
    idxByName := map[];
    for i := 0 to |phases|
      invariant ByIndex(idxByName, phases[..i])
    {
      IndexAppend(idxByName, phases[..i], phases[i]);
      assert phases[..i + 1] == phases[..i] + [phases[i]];
      idxByName := idxByName[PhaseKey(phases[i]) := i];
    }
    assert phases[..|phases|] == phases;
  }

  lemma {:induction false} IndexAppend(idxByName: map<string, int>, phases: seq<Phase>, ph: Phase)
    requires ByIndex(idxByName, phases)
    ensures ByIndex(idxByName[PhaseKey(ph) := |phases|], phases + [ph])
  {
    FindLastSnoc(phases, ph);
  }

  lemma {:induction false} IndexUpdate(idxByName: map<string, int>, phases: seq<Phase>, j: nat, ph: Phase)
    requires ByIndex(idxByName, phases) && j < |phases| && PhaseKey(ph) == PhaseKey(phases[j])
    ensures ByIndex(idxByName, phases[j := ph])
  {
    FindLastUpdate(phases, j, ph);
  }

  /** One round of the update loop. */
  method UpdateRound(idxByName: map<string, int>, out: seq<Phase>, drawn: nat, ph: Phase, ids: Ids)
      returns (idx: map<string, int>, out': seq<Phase>, drawn': nat)
    requires ByIndex(idxByName, out)
    ensures Draw(out', drawn') == UpdateOne(Draw(out, drawn), ph, ids)
    ensures ByIndex(idx, out')
  {
    hide FindLast;
    hide TrimLeft;
    hide TrimRight;
    idx, out', drawn' := idxByName, out, drawn;
    var name := Trim(ph.name);
    if name == "" {
      return;
    }
    if Lower(name) in idx {
      var j := idx[Lower(name)];
      IndexUpdate(idx, out, j, Updated(out[j], ph));
      out' := out[j := Updated(out[j], ph)];
    } else {
      var id := Trim(ph.id);
      if id == "" {
        id := ids(drawn);
        drawn' := drawn + 1;
      }
      var added := NewPhase(ph, id, |out| + 1);
      NewPhaseKey(ph, id, |out| + 1);
      IndexAppend(idx, out, added);
      out' := out + [added];
      idx := idx[Lower(name) := |out|];
    }
  }

  method UpdatePhases(existing: seq<Phase>, incoming: seq<Phase>, ids: Ids) returns (out: seq<Phase>, drawn: nat)
    ensures Draw(out, drawn) == Update(existing, incoming, ids)
  {
    out, drawn := existing, 0;
    var idxByName := IndexPhases(existing);
    for i := 0 to |incoming|
      invariant Draw(out, drawn) == Update(existing, incoming[..i], ids)
      invariant ByIndex(idxByName, out)
    {
      assert incoming[..i + 1][..i] == incoming[..i];
      idxByName, out, drawn := UpdateRound(idxByName, out, drawn, incoming[i], ids);
    }
    assert incoming[..|incoming|] == incoming;
  }

  lemma {:induction false} FindLastSnoc(phases: seq<Phase>, ph: Phase)
    ensures forall key :: FindLast(phases + [ph], key) ==
                          if PhaseKey(ph) == key then |phases| else FindLast(phases, key)
  {
    assert (phases + [ph])[..|phases|] == phases;
  }

  lemma {:induction false} FindLastIs(phases: seq<Phase>, key: string, j: int)
    requires -1 <= j < |phases|
    requires j >= 0 ==> PhaseKey(phases[j]) == key
    requires forall i :: j < i < |phases| ==> PhaseKey(phases[i]) != key
    ensures FindLast(phases, key) == j
  {
    var l := FindLast(phases, key);
    assert l >= 0 ==> PhaseKey(phases[l]) == key;
  }

  lemma {:induction false} FindLastUpdate(phases: seq<Phase>, j: nat, ph: Phase)
    requires j < |phases| && PhaseKey(ph) == PhaseKey(phases[j])
    ensures forall key :: FindLast(phases[j := ph], key) == FindLast(phases, key)
  {
    forall key ensures FindLast(phases[j := ph], key) == FindLast(phases, key) {
      FindLastIs(phases[j := ph], key, FindLast(phases, key));
    }
  }

  // ---- replacing twice ----

  lemma {:induction false} NewPhaseKey(ph: Phase, id: string, order: int)
    ensures PhaseKey(NewPhase(ph, id, order)) == PhaseKey(ph)
  {
    TrimSpec(ph.name);
  }

  predicate Fresh(ph: Phase) {
    ph.milestone == 0 && ph.id != "" && Trim(ph.name) != ""
  }

  lemma {:induction false} ReplaceOneShape(existing: seq<Phase>, r: Draw, ph: Phase, i: nat, ids: Ids)
    requires Minting(ids) && DistinctKeys(r.phases)
    requires forall j :: 0 <= j < |r.phases| ==> Fresh(r.phases[j])
    ensures var out := ReplaceOne(existing, r, ph, i, ids).phases;
            && DistinctKeys(out)
            && (forall j :: 0 <= j < |out| ==> Fresh(out[j]))
            && (Named(ph) ==> FindLast(out, PhaseKey(ph)) >= 0)
            && (forall key :: FindLast(r.phases, key) >= 0 ==> FindLast(out, key) >= 0)
  {
    var out := ReplaceOne(existing, r, ph, i, ids).phases;
    if out != r.phases {
      var added := out[|r.phases|];
      assert out == r.phases + [added];
      TrimSpec(ph.name);
      FindLastSnoc(r.phases, added);
      assert PhaseKey(added) == PhaseKey(ph);
    }
  }

  lemma {:induction false} ReplaceShape(existing: seq<Phase>, incoming: seq<Phase>, ids: Ids)
    requires Minting(ids)
    ensures var out := Replace(existing, incoming, ids).phases;
            && DistinctKeys(out)
            && (forall i :: 0 <= i < |out| ==> Fresh(out[i]))
            && (forall i :: 0 <= i < |incoming| && Named(incoming[i]) ==> FindLast(out, PhaseKey(incoming[i])) >= 0)
  {
    hide ReplaceOne;
    hide PhaseKey;
    hide Named;
    hide Fresh;
    if incoming == [] {
    } else {
      var n := |incoming| - 1;
      ReplaceShape(existing, incoming[..n], ids);
      var r := Replace(existing, incoming[..n], ids);
      ReplaceOneShape(existing, r, incoming[n], n, ids);
      var out := ReplaceOne(existing, r, incoming[n], n, ids).phases;
      forall i | 0 <= i < n && Named(incoming[i]) ensures FindLast(out, PhaseKey(incoming[i])) >= 0 {
        assert FindLast(r.phases, PhaseKey(incoming[..n][i])) >= 0;
      }
    }
  }

  lemma {:induction false} PrefixTransitive(a: seq<Phase>, b: seq<Phase>, c: seq<Phase>)
    requires a <= b && b <= c
    ensures a <= c
  {}

  lemma {:induction false} ReplaceOneGrows(existing: seq<Phase>, r: Draw, ph: Phase, i: nat, ids: Ids)
    ensures r.phases <= ReplaceOne(existing, r, ph, i, ids).phases
  {}

  lemma {:induction false} ReplacePrefix(existing: seq<Phase>, incoming: seq<Phase>, ids: Ids, m: nat)
    requires m <= |incoming|
    ensures Replace(existing, incoming[..m], ids).phases <= Replace(existing, incoming, ids).phases
  {
    hide ReplaceOne;
    var n := |incoming| - 1;
    if m <= n {
      ReplacePrefix(existing, incoming[..n], ids, m);
      assert incoming[..n][..m] == incoming[..m];
      var mid := Replace(existing, incoming[..n], ids);
      ReplaceOneGrows(existing, mid, incoming[n], n, ids);
      PrefixTransitive(Replace(existing, incoming[..m], ids).phases, mid.phases,
                       ReplaceOne(existing, mid, incoming[n], n, ids).phases);
    } else {
      assert incoming[..m] == incoming;
    }
  }

  lemma {:induction false} DistinctFind(phases: seq<Phase>, j: nat)
    requires DistinctKeys(phases) && j < |phases|
    ensures FindLast(phases, PhaseKey(phases[j])) == j
  {
    FindLastIs(phases, PhaseKey(phases[j]), j);
  }

  lemma {:induction false} ReplaceAgain(existing: seq<Phase>, incoming: seq<Phase>, ids: Ids, again: Ids, m: nat)
    requires Minting(ids) && m <= |incoming|
    ensures var out := Replace(existing, incoming, ids).phases;
            Replace(out, incoming[..m], again) == Draw(Replace(existing, incoming[..m], ids).phases, 0)
  {
    var out := Replace(existing, incoming, ids).phases;
    if m == 0 {
    } else {
      ReplaceAgain(existing, incoming, ids, again, m - 1);
      assert incoming[..m][..m - 1] == incoming[..m - 1];
      ReplaceShape(existing, incoming, ids);
      ReplacePrefix(existing, incoming, ids, m);
      var before := Replace(existing, incoming[..m - 1], ids).phases;
      var after := Replace(existing, incoming[..m], ids).phases;
      if after != before {
        var j := |before|;
        assert after[j] == out[j];
        NewPhaseKey(incoming[m - 1], out[j].id, m);
        DistinctFind(out, j);
      }
    }
  }

  // ---- updating twice ----

  /** What a list of proposals does to a phase with a given key: for each field, the last non-blank
      proposal. */
  datatype Change = Change(description: Option<string>, order: Option<int>, status: Option<string>)

  predicate Concerns(prop: Phase, key: string) {
    Named(prop) && PhaseKey(prop) == key
  }

  function ChangeOf(incoming: seq<Phase>, key: string): Change {
    if incoming == [] then Change(None, None, None)
    else
      var c, prop := ChangeOf(incoming[..|incoming| - 1], key), incoming[|incoming| - 1];
      if !Concerns(prop, key) then c
      else
        Change(if Trim(prop.description) != "" then Some(Trim(prop.description)) else c.description,
               if prop.order > 0 then Some(prop.order) else c.order,
               if Trim(prop.status) != "" then Some(Trim(prop.status)) else c.status)
  }

  function Changed(ph: Phase, c: Change): Phase {
    var p1 := if c.description.Some? then ph.(description := c.description.value) else ph;
    var p2 := if c.order.Some? then p1.(order := c.order.value) else p1;
    if c.status.Some? then p2.(status := c.status.value) else p2
  }

  lemma {:induction false} ChangedStep(ph: Phase, incoming: seq<Phase>, key: string)
    requires incoming != []
    ensures var n := |incoming| - 1; var before := Changed(ph, ChangeOf(incoming[..n], key));
            Changed(ph, ChangeOf(incoming, key)) ==
            if Concerns(incoming[n], key) then Updated(before, incoming[n]) else before
  {
    hide TrimLeft;
    hide TrimRight;
    hide Lower;
  }

  lemma {:induction false} Unconcerned(ph: Phase, incoming: seq<Phase>, key: string)
    requires forall i :: 0 <= i < |incoming| ==> !Concerns(incoming[i], key)
    ensures Changed(ph, ChangeOf(incoming, key)) == ph
  {
    if incoming == [] {
    } else {
      Unconcerned(ph, incoming[..|incoming| - 1], key);
    }
  }

  /** Where each phase of an update comes from: its first form, changed by the whole list if it is the
      last of its name, untouched otherwise. */
  ghost predicate Origins(out: seq<Phase>, origins: seq<Phase>, incoming: seq<Phase>) {
    && |origins| == |out|
    && (forall j :: 0 <= j < |out| ==> PhaseKey(out[j]) == PhaseKey(origins[j]))
    && (forall j :: 0 <= j < |out| ==>
          out[j] == if FindLast(out, PhaseKey(out[j])) == j
                    then Changed(origins[j], ChangeOf(incoming, PhaseKey(out[j])))
                    else origins[j])
    && (forall i :: 0 <= i < |incoming| && Named(incoming[i]) ==> FindLast(out, PhaseKey(incoming[i])) >= 0)
  }

  lemma {:induction false} OriginsStay(out: seq<Phase>, origins: seq<Phase>, incoming: seq<Phase>, prop: Phase)
    requires Origins(out, origins, incoming) && !Named(prop)
    ensures Origins(out, origins, incoming + [prop])
  {
    assert (incoming + [prop])[..|incoming|] == incoming;
    forall j | 0 <= j < |out|
      ensures ChangeOf(incoming + [prop], PhaseKey(out[j])) == ChangeOf(incoming, PhaseKey(out[j]))
    {}
  }

  lemma {:induction false} UpdatedKey(ph: Phase, prop: Phase)
    ensures PhaseKey(Updated(ph, prop)) == PhaseKey(ph)
  {}

  lemma {:induction false} OriginsUpdate(out: seq<Phase>, origins: seq<Phase>, incoming: seq<Phase>, prop: Phase,
                                         j0: nat)
    requires Origins(out, origins, incoming) && Named(prop)
    requires j0 == FindLast(out, PhaseKey(prop)) as int
    ensures Origins(out[j0 := Updated(out[j0], prop)], origins, incoming + [prop])
  {
    hide ChangeOf;
    hide Changed;
    hide PhaseKey;
    hide FindLast;
    hide Updated;
    var out', all := out[j0 := Updated(out[j0], prop)], incoming + [prop];
    UpdatedKey(out[j0], prop);
    FindLastUpdate(out, j0, Updated(out[j0], prop));
    forall j | 0 <= j < |out'|
      ensures out'[j] == if FindLast(out', PhaseKey(out'[j])) == j
                         then Changed(origins[j], ChangeOf(all, PhaseKey(out'[j])))
                         else origins[j]
    {
      ChangedSnoc(origins[j], incoming, prop, PhaseKey(out[j]));
    }
    CoverSnoc(out', incoming, prop);
  }

  lemma {:induction false} CoverSnoc(out: seq<Phase>, incoming: seq<Phase>, prop: Phase)
    requires forall i :: 0 <= i < |incoming| && Named(incoming[i]) ==> FindLast(out, PhaseKey(incoming[i])) >= 0
    requires FindLast(out, PhaseKey(prop)) >= 0
    ensures var all := incoming + [prop];
            forall i :: 0 <= i < |all| && Named(all[i]) ==> FindLast(out, PhaseKey(all[i])) >= 0
  {}

  lemma {:induction false} ChangedSnoc(ph: Phase, incoming: seq<Phase>, prop: Phase, key: string)
    ensures var before := Changed(ph, ChangeOf(incoming, key));
            Changed(ph, ChangeOf(incoming + [prop], key)) ==
            if Concerns(prop, key) then Updated(before, prop) else before
  {
    assert (incoming + [prop])[..|incoming|] == incoming;
    ChangedStep(ph, incoming + [prop], key);
  }

  lemma {:induction false} OriginsAppend(out: seq<Phase>, origins: seq<Phase>, incoming: seq<Phase>, prop: Phase,
                                         id: string, order: int)
    requires Origins(out, origins, incoming) && Named(prop) && FindLast(out, PhaseKey(prop)) < 0
    ensures Origins(out + [NewPhase(prop, id, order)], origins + [NewPhase(prop, id, order)], incoming + [prop])
  {
    hide ChangeOf;
    hide Changed;
    hide PhaseKey;
    hide FindLast;
    var added, all := NewPhase(prop, id, order), incoming + [prop];
    var out', origins' := out + [added], origins + [added];
    assert all[..|incoming|] == incoming;
    NewPhaseKey(prop, id, order);
    FindLastSnoc(out, added);
    forall j | 0 <= j < |out'|
      ensures out'[j] == if FindLast(out', PhaseKey(out'[j])) == j
                         then Changed(origins'[j], ChangeOf(all, PhaseKey(out'[j])))
                         else origins'[j]
    {
      ChangedStep(origins'[j], all, PhaseKey(out'[j]));
      if j == |out| {
        Unconcerned(added, incoming, PhaseKey(prop));
      }
    }
  }

  lemma {:induction false} OriginsOne(r: Draw, origins: seq<Phase>, incoming: seq<Phase>, prop: Phase, ids: Ids)
      returns (more: seq<Phase>)
    requires Origins(r.phases, origins, incoming)
    ensures Origins(UpdateOne(r, prop, ids).phases, more, incoming + [prop])
    ensures if Named(prop) && FindLast(r.phases, PhaseKey(prop)) < 0 then
              |more| == |origins| + 1 && origins <= more
              && MadeFrom(more[|origins|], prop, |r.phases| + 1, [], ids(r.drawn))
            else more == origins
  {
    if !Named(prop) {
      OriginsStay(r.phases, origins, incoming, prop);
      more := origins;
    } else if FindLast(r.phases, PhaseKey(prop)) >= 0 {
      OriginsUpdate(r.phases, origins, incoming, prop, FindLast(r.phases, PhaseKey(prop)));
      more := origins;
    } else {
      var id := if Trim(prop.id) != "" then Trim(prop.id) else ids(r.drawn);
      OriginsAppend(r.phases, origins, incoming, prop, id, |r.phases| + 1);
      more := origins + [NewPhase(prop, id, |r.phases| + 1)];
    }
  }

  lemma {:induction false} UpdateOrigins(existing: seq<Phase>, incoming: seq<Phase>, ids: Ids)
      returns (origins: seq<Phase>)
    ensures Origins(Update(existing, incoming, ids).phases, origins, incoming)
    ensures existing <= origins
  {
    hide Origins;
    var at, found := UpdateByFields(existing, incoming, ids);
    origins := found;
  }

  lemma {:induction false} UpdateOneDistinct(r: Draw, prop: Phase, ids: Ids)
    requires DistinctKeys(r.phases)
    ensures DistinctKeys(UpdateOne(r, prop, ids).phases)
  {
    hide TrimLeft;
    hide TrimRight;
    hide Lower;
    if Named(prop) && FindLast(r.phases, PhaseKey(prop)) < 0 {
      var added := UpdateOne(r, prop, ids).phases[|r.phases|];
      NewPhaseKey(prop, added.id, |r.phases| + 1);
      assert PhaseKey(added) == PhaseKey(prop);
    }
  }

  lemma {:induction false} UpdateDistinct(existing: seq<Phase>, incoming: seq<Phase>, ids: Ids)
    requires DistinctKeys(existing)
    ensures DistinctKeys(Update(existing, incoming, ids).phases)
  {
    if incoming == [] {
    } else {
      UpdateDistinct(existing, incoming[..|incoming| - 1], ids);
      UpdateOneDistinct(Update(existing, incoming[..|incoming| - 1], ids), incoming[|incoming| - 1], ids);
    }
  }

  lemma {:induction false} OriginsUnique(a: seq<Phase>, b: seq<Phase>, origins: seq<Phase>, incoming: seq<Phase>)
    requires Origins(a, origins, incoming) && Origins(b, origins, incoming)
    ensures a == b
  {
    forall key ensures FindLast(a, key) == FindLast(b, key) {
      FindLastIs(a, key, FindLast(b, key));
    }
  }

  /** A phase that has had all the proposals once is not changed by them again. */
  lemma {:induction false} OriginsSettled(out: seq<Phase>, origins: seq<Phase>, incoming: seq<Phase>)
    requires Origins(out, origins, incoming)
    ensures Origins(out, out, incoming)
  {
    hide ChangeOf;
    hide PhaseKey;
    hide FindLast;
  }

  lemma {:induction false} NoAppend(phases: seq<Phase>, incoming: seq<Phase>, ids: Ids)
    requires forall i :: 0 <= i < |incoming| && Named(incoming[i]) ==> FindLast(phases, PhaseKey(incoming[i])) >= 0
    ensures var r := Update(phases, incoming, ids);
            && r.drawn == 0 && |r.phases| == |phases|
            && (forall key :: FindLast(r.phases, key) == FindLast(phases, key))
  {
    if incoming == [] {
    } else {
      var n := |incoming| - 1;
      NoAppend(phases, incoming[..n], ids);
      var r := Update(phases, incoming[..n], ids);
      if Named(incoming[n]) {
        var j := FindLast(r.phases, PhaseKey(incoming[n]));
        FindLastUpdate(r.phases, j, Updated(r.phases[j], incoming[n]));
      }
    }
  }

  lemma {:induction false} UpdateAgain(existing: seq<Phase>, incoming: seq<Phase>, ids: Ids, again: Ids)
    ensures var out := Update(existing, incoming, ids).phases; Update(out, incoming, again) == Draw(out, 0)
  {
    var out := Update(existing, incoming, ids).phases;
    var origins := UpdateOrigins(existing, incoming, ids);
    OriginsSettled(out, origins, incoming);
    NoAppend(out, incoming, again);
    var origins2 := UpdateOrigins(out, incoming, again);
    assert origins2 == out;
    OriginsUnique(out, Update(out, incoming, again).phases, out, incoming);
  }

  // ---- the merge ----

  lemma {:induction false} NothingNamed(existing: seq<Phase>, incoming: seq<Phase>, ids: Ids)
    requires Replace(existing, incoming, ids).phases == []
    ensures Update(existing, incoming, ids) == Draw(existing, 0)
    ensures forall other: seq<Phase>, ids': Ids :: Replace(other, incoming, ids').phases == []
  {
    if incoming == [] {
    } else {
      var n := |incoming| - 1;
      NothingNamed(existing, incoming[..n], ids);
      assert !Named(incoming[n]);
    }
  }

  /** The parts of a phase a merge never touches. */
  predicate SameIdentity(a: Phase, b: Phase) {
    a.id == b.id && a.name == b.name && a.features == b.features && a.milestone == b.milestone
    && a.milestoneTitle == b.milestoneTitle && a.milestoneUrl == b.milestoneUrl
  }

  lemma {:induction false} ChangedIdentity(ph: Phase, c: Change)
    ensures SameIdentity(ph, Changed(ph, c))
  {}

  lemma {:induction false} UpdateStays(existing: seq<Phase>, incoming: seq<Phase>, ids: Ids)
    ensures var out := Update(existing, incoming, ids).phases;
            && |existing| <= |out|
            && (forall j :: 0 <= j < |existing| ==> SameIdentity(existing[j], out[j]))
  {
    var out := Update(existing, incoming, ids).phases;
    var origins := UpdateOrigins(existing, incoming, ids);
    forall j | 0 <= j < |existing| ensures SameIdentity(existing[j], out[j]) {
      assert origins[j] == existing[j];
      ChangedIdentity(origins[j], ChangeOf(incoming, PhaseKey(out[j])));
    }
  }

  lemma {:induction false} UpdateKeepsBind(existing: seq<Phase>, incoming: seq<Phase>, ids: Ids)
    requires HasBind(existing)
    ensures HasBind(Update(existing, incoming, ids).phases)
  {
    UpdateStays(existing, incoming, ids);
    var i :| 0 <= i < |existing| && existing[i].milestone > 0;
    assert SameIdentity(existing[i], Update(existing, incoming, ids).phases[i]);
  }

  /** Merging the same proposal a second time changes nothing and draws no fresh id, whichever way the
      merge goes. */
  lemma {:induction false} MergeIdempotent(existing: seq<Phase>, incoming: seq<Phase>, ids: Ids, again: Ids)
    requires Minting(ids)
    ensures Merge(Merge(existing, incoming, ids).phases, incoming, again)
            == Draw(Merge(existing, incoming, ids).phases, 0)
  {
    if incoming != [] {
      var out := Merge(existing, incoming, ids).phases;
      if HasBind(existing) {
        UpdateKeepsBind(existing, incoming, ids);
        UpdateAgain(existing, incoming, ids, again);
      } else if Replace(existing, incoming, ids).phases == [] {
        NothingNamed(existing, incoming, ids);
        NothingNamed(existing, incoming, again);
      } else {
        ReplaceShape(existing, incoming, ids);
        ReplaceAgain(existing, incoming, ids, again, |incoming|);
        assert incoming[..|incoming|] == incoming;
      }
    }
  }

  /** Once a phase is bound, the existing phases stay in front, each with its id, name, features and
      milestone. */
  lemma {:induction false} BoundPhasesStay(existing: seq<Phase>, incoming: seq<Phase>, ids: Ids)
    requires HasBind(existing)
    ensures var out := Merge(existing, incoming, ids).phases;
            && |existing| <= |out|
            && (forall j :: 0 <= j < |existing| ==> SameIdentity(existing[j], out[j]))
  {
    UpdateStays(existing, incoming, ids);
  }

  /** Names stay distinct up to case and surrounding blanks, and every proposed name is present. */
  lemma {:induction false} MergeKeepsNamesDistinct(existing: seq<Phase>, incoming: seq<Phase>, ids: Ids)
    requires Minting(ids) && DistinctKeys(existing)
    ensures var out := Merge(existing, incoming, ids).phases;
            && DistinctKeys(out)
            && (forall i :: 0 <= i < |incoming| && Named(incoming[i]) ==> FindLast(out, PhaseKey(incoming[i])) >= 0)
  {
    ReplaceShape(existing, incoming, ids);
    var origins := UpdateOrigins(existing, incoming, ids);
    UpdateDistinct(existing, incoming, ids);
  }

  // ---- the merge by the fields of the proposals ----

  predicate HasName(phases: seq<Phase>, key: string) {
    exists i :: 0 <= i < |phases| && Key(phases[i].name) == key
  }

  /** A proposal with a name that no taken phase and no earlier proposal has. */
  predicate NewName(taken: seq<Phase>, incoming: seq<Phase>, i: nat)
    requires i < |incoming|
  {
    Trim(incoming[i].name) != "" && !HasName(taken, Key(incoming[i].name))
    && !HasName(incoming[..i], Key(incoming[i].name))
  }

  /** The id of a proposal: its own, else that of the last phase of its name among those to reuse, blank if none. */
  function KnownId(reuse: seq<Phase>, prop: Phase): string {
    var j := FindLast(reuse, Key(prop.name));
    if Trim(prop.id) != "" then Trim(prop.id) else if j >= 0 then reuse[j].id else ""
  }

  /** How many ids are drawn for the proposals. */
  function DrawnFor(taken: seq<Phase>, reuse: seq<Phase>, incoming: seq<Phase>): nat {
    if incoming == [] then 0
    else
      var n := |incoming| - 1;
      DrawnFor(taken, reuse, incoming[..n])
      + if NewName(taken, incoming, n) && KnownId(reuse, incoming[n]) == "" then 1 else 0
  }

  /** The phase that a proposal becomes, under the id that it has or the next one drawn. */
  predicate MadeFrom(out: Phase, prop: Phase, place: int, reuse: seq<Phase>, drawn: string) {
    && out.id == (if KnownId(reuse, prop) != "" then KnownId(reuse, prop) else drawn)
    && out.name == Trim(prop.name) && out.description == Trim(prop.description)
    && out.order == (if prop.order != 0 then prop.order else place)
    && out.status == (if Trim(prop.status) != "" then Trim(prop.status) else "planned")
    && out.features == [] && out.milestone == 0 && out.milestoneTitle == "" && out.milestoneUrl == ""
  }

  ghost predicate Chosen(at: seq<nat>, taken: seq<Phase>, incoming: seq<Phase>) {
    Increasing(at) && forall i: nat :: i in at <==> i < |incoming| && NewName(taken, incoming, i)
  }

  lemma {:induction false} HasNameFind(phases: seq<Phase>, key: string)
    ensures HasName(phases, key) <==> FindLast(phases, key) >= 0
  {
    var j := FindLast(phases, key);
    assert j >= 0 ==> Key(phases[j].name) == key;
  }

  lemma {:induction false} HasNameSnoc(phases: seq<Phase>, ph: Phase, key: string)
    ensures HasName(phases + [ph], key) <==> HasName(phases, key) || Key(ph.name) == key
  {
    HasNameFind(phases, key);
    HasNameFind(phases + [ph], key);
    FindLastSnoc(phases, ph);
  }

  lemma {:induction false} NewNameFront(taken: seq<Phase>, incoming: seq<Phase>, n: nat, i: nat)
    requires i < n <= |incoming|
    ensures NewName(taken, incoming[..n], i) <==> NewName(taken, incoming, i)
  {
    assert incoming[..n][..i] == incoming[..i];
  }

  lemma {:induction false} ChosenSnoc(at: seq<nat>, taken: seq<Phase>, incoming: seq<Phase>)
    requires incoming != [] && Chosen(at, taken, incoming[..|incoming| - 1])
    ensures var n := |incoming| - 1;
            Chosen(if NewName(taken, incoming, n) then at + [n] else at, taken, incoming)
  {
    var n := |incoming| - 1;
    forall i: nat | i < n ensures NewName(taken, incoming[..n], i) <==> NewName(taken, incoming, i) {
      NewNameFront(taken, incoming, n, i);
    }
    hide NewName;
    IncreasingSnoc(at, n);
    assert forall i: nat :: i in at + [n] <==> i in at || i == n;
  }

  /** The names of a list: those of the phases it started from and those of the proposals. */
  ghost predicate NamesAfter(taken: seq<Phase>, incoming: seq<Phase>, after: seq<Phase>) {
    forall key :: HasName(after, key) <==> HasName(taken, key) || (key != "" && HasName(incoming, key))
  }

  lemma {:induction false} KeyBlank(name: string)
    ensures Key(name) == "" <==> Trim(name) == ""
    ensures Key(Trim(name)) == Key(name)
  {
    TrimSpec(name);
  }

  lemma {:induction false} NewByNames(taken: seq<Phase>, incoming: seq<Phase>, sofar: seq<Phase>)
    requires incoming != [] && NamesAfter(taken, incoming[..|incoming| - 1], sofar)
    ensures var n := |incoming| - 1;
            NewName(taken, incoming, n) <==> Named(incoming[n]) && FindLast(sofar, PhaseKey(incoming[n])) < 0
  {
    KeyBlank(incoming[|incoming| - 1].name);
    HasNameFind(sofar, PhaseKey(incoming[|incoming| - 1]));
    hide HasName;
    hide FindLast;
    hide Key;
    hide Trim;
  }

  lemma {:induction false} NamesSnoc(taken: seq<Phase>, incoming: seq<Phase>, prop: Phase, sofar: seq<Phase>,
                                     after: seq<Phase>)
    requires NamesAfter(taken, incoming, sofar)
    requires forall key :: HasName(after, key) <==> HasName(sofar, key) || (Named(prop) && key == Key(prop.name))
    ensures NamesAfter(taken, incoming + [prop], after)
  {
    KeyBlank(prop.name);
    forall key ensures HasName(incoming + [prop], key) <==> HasName(incoming, key) || Key(prop.name) == key {
      HasNameSnoc(incoming, prop, key);
    }
    hide HasName;
    hide Key;
    hide Trim;
  }

  // ---- replacing ----

  predicate ReplacedFrom(out: seq<Phase>, existing: seq<Phase>, incoming: seq<Phase>, ids: Ids, at: seq<nat>) {
    |out| == |at| && forall k :: 0 <= k < |at| ==>
      at[k] < |incoming|
      && MadeFrom(out[k], incoming[at[k]], at[k] + 1, existing, ids(DrawnFor([], existing, incoming[..at[k]])))
  }

  lemma {:induction false} ReplacedLonger(out: seq<Phase>, existing: seq<Phase>, incoming: seq<Phase>, ids: Ids,
                                          at: seq<nat>)
    requires incoming != [] && ReplacedFrom(out, existing, incoming[..|incoming| - 1], ids, at)
    ensures ReplacedFrom(out, existing, incoming, ids, at)
  {
    hide MadeFrom;
    hide DrawnFor;
    var front := incoming[..|incoming| - 1];
    forall k | 0 <= k < |at| ensures front[..at[k]] == incoming[..at[k]] {
      assert at[k] < |front|;
    }
  }

  lemma {:induction false} ReplaceOneByFields(existing: seq<Phase>, r: Draw, prop: Phase, i: nat, ids: Ids)
      returns (made: Phase)
    ensures var r' := ReplaceOne(existing, r, prop, i, ids);
            if !Named(prop) || FindLast(r.phases, PhaseKey(prop)) >= 0 then r' == r
            else MadeFrom(made, prop, i + 1, existing, ids(r.drawn)) && r'.phases == r.phases + [made]
                 && r'.drawn == r.drawn + if KnownId(existing, prop) == "" then 1 else 0
    ensures forall key :: HasName(ReplaceOne(existing, r, prop, i, ids).phases, key)
                          <==> HasName(r.phases, key) || (Named(prop) && key == Key(prop.name))
  {
    made := prop;
    var r' := ReplaceOne(existing, r, prop, i, ids);
    HasNameFind(r.phases, PhaseKey(prop));
    KeyBlank(prop.name);
    if Named(prop) && FindLast(r.phases, PhaseKey(prop)) < 0 {
      made := r'.phases[|r.phases|];
      forall key ensures HasName(r'.phases, key) <==> HasName(r.phases, key) || key == Key(made.name) {
        HasNameSnoc(r.phases, made, key);
      }
    }
  }

  /** What replacing gives. The new list holds, in order, one phase for each proposal with a new name, made from its
      fields, under its own id, else the id of the last existing phase of its name, else the next one drawn. */
  lemma {:induction false} ReplaceByFields(existing: seq<Phase>, incoming: seq<Phase>, ids: Ids) returns (at: seq<nat>)
    ensures var r := Replace(existing, incoming, ids);
            && Chosen(at, [], incoming) && ReplacedFrom(r.phases, existing, incoming, ids, at)
            && r.drawn == DrawnFor([], existing, incoming) && NamesAfter([], incoming, r.phases)
  {
    hide ReplaceOne;
    hide MadeFrom;
    hide HasName;
    hide Chosen;
    hide FindLast;
    hide Trim;
    hide Key;
    at := [];
    if incoming == [] {
      NothingChosen([]);
    } else {
      var n := |incoming| - 1;
      at := ReplaceByFields(existing, incoming[..n], ids);
      var r := Replace(existing, incoming[..n], ids);
      var made := ReplaceOneByFields(existing, r, incoming[n], n, ids);
      NewByNames([], incoming, r.phases);
      ChosenSnoc(at, [], incoming);
      ReplacedLonger(r.phases, existing, incoming, ids, at);
      assert incoming[..n] + [incoming[n]] == incoming;
      NamesSnoc([], incoming[..n], incoming[n], r.phases, Replace(existing, incoming, ids).phases);
      hide NamesAfter;
      if NewName([], incoming, n) {
        at := at + [n];
      }
    }
  }

  lemma {:induction false} NothingChosen(taken: seq<Phase>)
    ensures Chosen([], taken, []) && NamesAfter(taken, [], taken)
  {}

  // ---- updating ----

  predicate AppendedFrom(origins: seq<Phase>, existing: seq<Phase>, incoming: seq<Phase>, ids: Ids, at: seq<nat>) {
    && existing <= origins && |origins| == |existing| + |at|
    && forall k :: 0 <= k < |at| ==>
         at[k] < |incoming|
         && MadeFrom(origins[|existing| + k], incoming[at[k]], |existing| + k + 1, [],
                     ids(DrawnFor(existing, [], incoming[..at[k]])))
  }

  lemma {:induction false} AppendedLonger(origins: seq<Phase>, existing: seq<Phase>, incoming: seq<Phase>, ids: Ids,
                                          at: seq<nat>)
    requires incoming != [] && AppendedFrom(origins, existing, incoming[..|incoming| - 1], ids, at)
    ensures AppendedFrom(origins, existing, incoming, ids, at)
  {
    hide MadeFrom;
    hide DrawnFor;
    var front := incoming[..|incoming| - 1];
    forall k | 0 <= k < |at| ensures front[..at[k]] == incoming[..at[k]] {
      assert at[k] < |front|;
    }
  }

  lemma {:induction false} AppendedSnoc(origins: seq<Phase>, existing: seq<Phase>, incoming: seq<Phase>, ids: Ids,
                                        at: seq<nat>, more: seq<Phase>)
    requires incoming != [] && AppendedFrom(origins, existing, incoming, ids, at)
    requires |more| == |origins| + 1 && origins <= more
    requires MadeFrom(more[|origins|], incoming[|incoming| - 1], |origins| + 1, [],
                      ids(DrawnFor(existing, [], incoming[..|incoming| - 1])))
    ensures AppendedFrom(more, existing, incoming, ids, at + [|incoming| - 1])
  {
    hide MadeFrom;
    hide DrawnFor;
  }

  lemma {:induction false} UpdateOneByFields(r: Draw, prop: Phase, ids: Ids)
    ensures UpdateOne(r, prop, ids).drawn
            == r.drawn + if Named(prop) && FindLast(r.phases, PhaseKey(prop)) < 0 && KnownId([], prop) == "" then 1
                         else 0
    ensures forall key :: HasName(UpdateOne(r, prop, ids).phases, key)
                          <==> HasName(r.phases, key) || (Named(prop) && key == Key(prop.name))
  {
    hide FindLast;
    hide HasName;
    hide Trim;
    hide Key;
    var r', j := UpdateOne(r, prop, ids), FindLast(r.phases, PhaseKey(prop));
    forall key ensures HasName(r'.phases, key) <==> HasName(r.phases, key) || (Named(prop) && key == Key(prop.name)) {
      HasNameFind(r.phases, key);
      HasNameFind(r'.phases, key);
      if Named(prop) && j >= 0 {
        UpdatedKey(r.phases[j], prop);
        FindLastUpdate(r.phases, j, Updated(r.phases[j], prop));
      } else if Named(prop) {
        var added := r'.phases[|r.phases|];
        NewPhaseKey(prop, added.id, |r.phases| + 1);
        FindLastSnoc(r.phases, added);
      }
    }
  }

  /** What updating gives. The phases start out as the existing ones, followed, in order, by one for each proposal with
      a name that is new, made from its fields under its own id or the next one drawn. The last phase of each name then
      has, field by field, the last description, order and status that the proposals of its name give; all else
      stays. */
  lemma {:induction false} UpdateByFields(existing: seq<Phase>, incoming: seq<Phase>, ids: Ids)
      returns (at: seq<nat>, origins: seq<Phase>)
    ensures var r := Update(existing, incoming, ids);
            && Chosen(at, existing, incoming) && AppendedFrom(origins, existing, incoming, ids, at)
            && Origins(r.phases, origins, incoming)
            && r.drawn == DrawnFor(existing, [], incoming) && NamesAfter(existing, incoming, r.phases)
  {
    hide UpdateOne;
    hide MadeFrom;
    hide HasName;
    hide Chosen;
    hide FindLast;
    hide Trim;
    hide Key;
    at, origins := [], existing;
    if incoming == [] {
      NothingChosen(existing);
      OriginsStart(existing);
    } else {
      var n := |incoming| - 1;
      at, origins := UpdateByFields(existing, incoming[..n], ids);
      var r := Update(existing, incoming[..n], ids);
      UpdateOneByFields(r, incoming[n], ids);
      assert incoming[..n] + [incoming[n]] == incoming;
      var more := OriginsOne(r, origins, incoming[..n], incoming[n], ids);
      NewByNames(existing, incoming, r.phases);
      ChosenSnoc(at, existing, incoming);
      AppendedLonger(origins, existing, incoming, ids, at);
      assert |origins| == |r.phases|;
      NamesSnoc(existing, incoming[..n], incoming[n], r.phases, Update(existing, incoming, ids).phases);
      hide NamesAfter;
      hide Origins;
      if NewName(existing, incoming, n) {
        AppendedSnoc(origins, existing, incoming, ids, at, more);
        at := at + [n];
      }
      origins := more;
    }
  }

  lemma {:induction false} OriginsStart(existing: seq<Phase>)
    ensures Origins(existing, existing, [])
  {}

  /** Which way a merge goes: the existing phases are replaced exactly if none of them is bound and some proposal has a
      name, and updated otherwise; without proposals, or with unnamed ones alone, nothing changes. */
  lemma {:induction false} MergeMode(existing: seq<Phase>, incoming: seq<Phase>, ids: Ids)
    ensures var bound := exists i :: 0 <= i < |existing| && existing[i].milestone > 0;
            var named := exists i :: 0 <= i < |incoming| && Trim(incoming[i].name) != "";
            && (!bound && named ==> Merge(existing, incoming, ids) == Replace(existing, incoming, ids))
            && (bound && named ==> Merge(existing, incoming, ids) == Update(existing, incoming, ids))
            && (!named ==> Merge(existing, incoming, ids) == Draw(existing, 0))
  {
    hide Trim;
    hide Key;
    NamedReplaces(existing, incoming, ids);
    if Replace(existing, incoming, ids).phases == [] {
      NothingNamed(existing, incoming, ids);
    }
    if forall i :: 0 <= i < |incoming| ==> Trim(incoming[i].name) == "" {
      UnnamedUpdate(existing, incoming, ids);
    }
  }

  lemma {:induction false} NamedReplaces(existing: seq<Phase>, incoming: seq<Phase>, ids: Ids)
    ensures Replace(existing, incoming, ids).phases != [] <==>
              exists i :: 0 <= i < |incoming| && Trim(incoming[i].name) != ""
  {
    hide Trim;
    hide Key;
    if incoming == [] {
    } else {
      NamedReplaces(existing, incoming[..|incoming| - 1], ids);
    }
  }

  lemma {:induction false} UnnamedUpdate(existing: seq<Phase>, incoming: seq<Phase>, ids: Ids)
    requires forall i :: 0 <= i < |incoming| ==> Trim(incoming[i].name) == ""
    ensures Update(existing, incoming, ids) == Draw(existing, 0)
  {
    hide Trim;
    hide Key;
    if incoming == [] {
    } else {
      UnnamedUpdate(existing, incoming[..|incoming| - 1], ids);
    }
  }
}
