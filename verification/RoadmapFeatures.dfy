/** Taking a model's features into a roadmap, and the validity check a roadmap must pass to be published. */
module RoadmapFeatures {
  import opened Text
  import opened RoadmapPhases
  import opened Positions

  datatype Feature = Feature(id: string, title: string, phaseId: string, priority: string, status: string)

  datatype Roadmap = Roadmap(phases: seq<Phase>, features: seq<Feature>)

  // ---- validateRoadmapJSON ----

  predicate KnownPhase(phases: seq<Phase>, id: string) {
    exists i :: 0 <= i < |phases| && Trim(phases[i].id) == id
  }

  /** There are phases, every phase has a name, and every feature that names a phase names an existing one. */
  predicate Valid(rm: Roadmap) {
    && rm.phases != []
    && (forall i :: 0 <= i < |rm.phases| ==> Named(rm.phases[i]))
    && (forall i :: 0 <= i < |rm.features| && Trim(rm.features[i].phaseId) != "" ==>
          KnownPhase(rm.phases, Trim(rm.features[i].phaseId)))
  }

  method ValidateRoadmapJSON(rm: Roadmap) returns (ok: bool)
    ensures ok == Valid(rm)
  {
    if |rm.phases| == 0 {
      return false;
    }
    for i := 0 to |rm.phases|
      invariant forall j :: 0 <= j < i ==> Named(rm.phases[j])
    {
      if Trim(rm.phases[i].name) == "" {
        return false;
      }
    }
    var known: set<string> := {};
    for i := 0 to |rm.phases|
      invariant forall id :: id in known <==> id != "" && exists j :: 0 <= j < i && Trim(rm.phases[j].id) == id
    {
      var id := Trim(rm.phases[i].id);
      if id != "" {
        known := known + {id};
      }
    }
    var dangling := 0;
    for i := 0 to |rm.features|
      invariant dangling == 0 <==> forall j :: 0 <= j < i && Trim(rm.features[j].phaseId) != "" ==>
                                     KnownPhase(rm.phases, Trim(rm.features[j].phaseId))
      invariant dangling >= 0
    {
      var pid := Trim(rm.features[i].phaseId);
      if pid != "" && pid !in known {
        dangling := dangling + 1;
      }
    }
    return dangling == 0;
  }

  // ---- applyModelRoadmapFeatures ----

  /** The first phase with exactly this id, or the number of phases. */
  function PhaseAt(phases: seq<Phase>, id: string): (i: nat)
    ensures i <= |phases|
    ensures i < |phases| ==> phases[i].id == id
    ensures forall j :: 0 <= j < i ==> phases[j].id != id
  {
    if phases == [] || phases[0].id == id then 0 else 1 + PhaseAt(phases[1..], id)
  }

  /** The phase a feature is filed under: the one it names by id, else by name, else the first. */
  function FiledUnder(phases: seq<Phase>, phaseId: string): string
    requires phases != []
  {
    var wanted := Trim(phaseId);
    var byName := FindLast(phases, Lower(wanted));
    var id :=
      if wanted == "" || PhaseAt(phases, wanted) < |phases| then wanted
      else if byName >= 0 then phases[byName].id
      else phases[0].id;
    if id == "" then phases[0].id else id
  }

  predicate HasTitle(features: seq<Feature>, key: string) {
    exists i :: 0 <= i < |features| && Key(features[i].title) == key
  }

  /** An intake in progress: the roadmap so far, how many features it added, how many ids it drew. */
  datatype Intake = Intake(rm: Roadmap, added: nat, drawn: nat)

  function File(phases: seq<Phase>, phaseId: string, featureId: string): seq<Phase> {
    var i := PhaseAt(phases, phaseId);
    if i < |phases| then phases[i := phases[i].(features := phases[i].features + [featureId])] else phases
  }

  predicate Skips(features: seq<Feature>, f: Feature) {
    Trim(f.title) == "" || HasTitle(features, Key(f.title))
  }

  function IntakeOne(r: Intake, f: Feature, ids: Ids): Intake
    requires r.rm.phases != []
  {
    if Skips(r.rm.features, f) then r
    else
      var id := if Trim(f.id) == "" then ids(r.drawn) else Trim(f.id);
      var phaseId := FiledUnder(r.rm.phases, f.phaseId);
      var filed := Feature(id, Trim(f.title), phaseId,
                           OrDefault(Trim(f.priority), "should"), OrDefault(Trim(f.status), "planned"));
      Intake(Roadmap(File(r.rm.phases, phaseId, id), r.rm.features + [filed]), r.added + 1,
             if Trim(f.id) == "" then r.drawn + 1 else r.drawn)
  }

  function TakeIn(rm: Roadmap, incoming: seq<Feature>, ids: Ids): (r: Intake)
    requires rm.phases != []
    ensures r.rm.phases != []
  {
    if incoming == [] then Intake(rm, 0, 0)
    else IntakeOne(TakeIn(rm, incoming[..|incoming| - 1], ids), incoming[|incoming| - 1], ids)
  }

  ghost predicate Titles(existing: set<string>, features: seq<Feature>) {
    forall key :: key in existing <==> HasTitle(features, key)
  }

  method TitlesOf(features: seq<Feature>) returns (existing: set<string>)
    ensures Titles(existing, features)
  {
    existing := {};
    for i := 0 to |features|
      invariant Titles(existing, features[..i])
    {
      HasTitleSnoc(features[..i], features[i]);
      assert features[..i + 1] == features[..i] + [features[i]];
      existing := existing + {Key(features[i].title)};
    }
    assert features[..|features|] == features;
  }

  /** One round of the intake loop. */
  method IntakeRound(existing: set<string>, rm: Roadmap, added: nat, drawn: nat, f: Feature, ids: Ids)
      returns (existing': set<string>, out: Roadmap, added': nat, drawn': nat)
    requires rm.phases != [] && Titles(existing, rm.features)
    ensures Intake(out, added', drawn') == IntakeOne(Intake(rm, added, drawn), f, ids)
    ensures Titles(existing', out.features)
  {
    hide TrimLeft;
    hide TrimRight;
    existing', out, added', drawn' := existing, rm, added, drawn;
    var title := Trim(f.title);
    if title == "" || Lower(title) in existing {
      return;
    }
    var id := Trim(f.id);
    if id == "" {
      id := ids(drawn);
      drawn' := drawn + 1;
    }
    var phaseId := FiledUnder(rm.phases, f.phaseId);
    var filed := Feature(id, title, phaseId,
                         OrDefault(Trim(f.priority), "should"), OrDefault(Trim(f.status), "planned"));
    var phases := FileUnder(rm.phases, phaseId, id);
    out, added' := Roadmap(phases, rm.features + [filed]), added + 1;
    existing' := existing + {Lower(title)};
    TrimSpec(f.title);
    HasTitleSnoc(rm.features, filed);
  }

  method ApplyModelRoadmapFeatures(rm: Roadmap, incoming: seq<Feature>, ids: Ids)
      returns (out: Roadmap, added: nat, publishable: bool)
    requires rm.phases != []
    ensures out == TakeIn(rm, incoming, ids).rm && added == TakeIn(rm, incoming, ids).added
    ensures publishable == Valid(out)
  {
    var existing := TitlesOf(rm.features);
    var drawn := 0;
    out, added := rm, 0;
    for i := 0 to |incoming|
      invariant Intake(out, added, drawn) == TakeIn(rm, incoming[..i], ids)
      invariant Titles(existing, out.features)
    {
      assert incoming[..i + 1][..i] == incoming[..i];
      existing, out, added, drawn := IntakeRound(existing, out, added, drawn, incoming[i], ids);
    }
    assert incoming[..|incoming|] == incoming;
    publishable := ValidateRoadmapJSON(out);
  }

  method FileUnder(phases: seq<Phase>, phaseId: string, featureId: string) returns (out: seq<Phase>)
    ensures out == File(phases, phaseId, featureId)
  {
    out := phases;
    for i := 0 to |phases|
      invariant out == phases
      invariant forall j :: 0 <= j < i ==> phases[j].id != phaseId
    {
      if phases[i].id == phaseId {
        out := phases[i := phases[i].(features := phases[i].features + [featureId])];
        return;
      }
    }
  }

  lemma {:induction false} HasTitleSnoc(features: seq<Feature>, f: Feature)
    ensures forall key :: HasTitle(features + [f], key) <==> HasTitle(features, key) || key == Key(f.title)
  {
    var all := features + [f];
    forall key ensures HasTitle(all, key) <==> HasTitle(features, key) || key == Key(f.title) {
      if HasTitle(features, key) {
        var i :| 0 <= i < |features| && Key(features[i].title) == key;
        assert all[i] == features[i];
      }
      assert all[|features|] == f;
    }
  }

  // ---- what an intake keeps ----

  /** Phases that differ at most in the features they list. */
  predicate SamePhases(a: seq<Phase>, b: seq<Phase>) {
    |a| == |b| && forall i :: 0 <= i < |a| ==>
      a[i].id == b[i].id && a[i].name == b[i].name && a[i].features <= b[i].features
  }

  lemma {:induction false} SamePhasesKnown(a: seq<Phase>, b: seq<Phase>, id: string)
    requires SamePhases(a, b)
    ensures KnownPhase(a, id) <==> KnownPhase(b, id)
  {
    if KnownPhase(a, id) {
      var i :| 0 <= i < |a| && Trim(a[i].id) == id;
      assert Trim(b[i].id) == id;
    }
    if KnownPhase(b, id) {
      var i :| 0 <= i < |b| && Trim(b[i].id) == id;
      assert Trim(a[i].id) == id;
    }
  }

  /** A feature is always filed under the id of an existing phase. */
  lemma {:induction false} FiledIsPhase(phases: seq<Phase>, phaseId: string)
    requires phases != []
    ensures PhaseAt(phases, FiledUnder(phases, phaseId)) < |phases|
    ensures KnownPhase(phases, Trim(FiledUnder(phases, phaseId)))
  {
    var id := FiledUnder(phases, phaseId);
    var byName := FindLast(phases, Lower(Trim(phaseId)));
    if id == phases[0].id {
      assert PhaseAt(phases, id) == 0;
    } else if byName >= 0 && id == phases[byName].id {
      assert PhaseAt(phases, id) <= byName;
    }
    var i := PhaseAt(phases, id);
    assert Trim(phases[i].id) == Trim(id);
  }

  /** Every feature is listed by the first phase carrying its phase id. */
  predicate ListedAt(phases: seq<Phase>, f: Feature) {
    var i := PhaseAt(phases, f.phaseId);
    i < |phases| && f.id in phases[i].features
  }

  lemma {:induction false} SamePhaseAt(a: seq<Phase>, b: seq<Phase>, id: string)
    requires SamePhases(a, b)
    ensures PhaseAt(a, id) == PhaseAt(b, id)
  {
    var i, j := PhaseAt(a, id), PhaseAt(b, id);
    assert i < |a| ==> b[i].id == id;
    assert j < |b| ==> a[j].id == id;
  }

  /** From one roadmap to a later one: features and listings only grow, and validity is the same. */
  ghost predicate Grows(a: Roadmap, b: Roadmap) {
    && SamePhases(a.phases, b.phases)
    && a.features <= b.features
    && (Valid(b) <==> Valid(a))
  }

  /** Every feature beyond the first `n` is listed by the phase it is filed under, and its title is no
      other feature's. */
  predicate WellFiled(rm: Roadmap, n: nat) {
    && n <= |rm.features|
    && (forall j :: n <= j < |rm.features| ==> ListedAt(rm.phases, rm.features[j]))
    && (forall i, j :: 0 <= i < j < |rm.features| && n <= j ==>
          Key(rm.features[i].title) != Key(rm.features[j].title))
  }

  lemma {:induction false} IntakeOneKeeps(r: Intake, f: Feature, ids: Ids)
    requires r.rm.phases != []
    ensures var r' := IntakeOne(r, f, ids);
            && Grows(r.rm, r'.rm)
            && (Trim(f.title) != "" ==> HasTitle(r'.rm.features, Key(f.title)))
            && |r'.rm.features| - |r.rm.features| == r'.added - r.added
  {
    hide TrimLeft;
    hide TrimRight;
    hide Lower;
    var r' := IntakeOne(r, f, ids);
    if !Skips(r.rm.features, f) {
      var filed := r'.rm.features[|r.rm.features|];
      TrimSpec(f.title);
      FiledIsPhase(r.rm.phases, f.phaseId);
      HasTitleSnoc(r.rm.features, filed);
      ValidSnoc(r.rm, r'.rm, filed);
    }
  }

  lemma {:induction false} ListedStays(a: seq<Phase>, b: seq<Phase>, f: Feature)
    requires SamePhases(a, b) && ListedAt(a, f)
    ensures ListedAt(b, f)
  {
    SamePhaseAt(a, b, f.phaseId);
  }

  lemma {:induction false} FileLists(phases: seq<Phase>, wanted: string, id: string)
    requires phases != []
    ensures var phaseId := FiledUnder(phases, wanted); var out := File(phases, phaseId, id);
            && SamePhases(phases, out)
            && PhaseAt(out, phaseId) < |out| && id in out[PhaseAt(out, phaseId)].features
  {
    var phaseId := FiledUnder(phases, wanted);
    FiledIsPhase(phases, wanted);
    SamePhaseAt(phases, File(phases, phaseId, id), phaseId);
  }

  lemma {:induction false} IntakeOneFiles(r: Intake, f: Feature, ids: Ids, n: nat)
    requires r.rm.phases != [] && WellFiled(r.rm, n)
    ensures WellFiled(IntakeOne(r, f, ids).rm, n)
  {
    hide TrimLeft;
    hide TrimRight;
    hide Lower;
    hide FiledUnder;
    var r' := IntakeOne(r, f, ids);
    if !Skips(r.rm.features, f) {
      var last := |r.rm.features|;
      var filed := r'.rm.features[last];
      TrimSpec(f.title);
      FileLists(r.rm.phases, f.phaseId, filed.id);
      forall j | n <= j < last ensures ListedAt(r'.rm.phases, r'.rm.features[j]) {
        ListedStays(r.rm.phases, r'.rm.phases, r.rm.features[j]);
      }
      forall i | 0 <= i < last ensures Key(r'.rm.features[i].title) != Key(filed.title) {
        assert r'.rm.features[i] == r.rm.features[i];
      }
    }
  }

  lemma {:induction false} ValidSnoc(rm: Roadmap, rm': Roadmap, f: Feature)
    requires SamePhases(rm.phases, rm'.phases) && rm'.features == rm.features + [f]
    requires KnownPhase(rm.phases, Trim(f.phaseId))
    ensures Valid(rm') <==> Valid(rm)
  {
    forall id ensures KnownPhase(rm.phases, id) <==> KnownPhase(rm'.phases, id) {
      SamePhasesKnown(rm.phases, rm'.phases, id);
    }
    forall i | 0 <= i < |rm.features| ensures rm'.features[i] == rm.features[i] {}
    assert rm'.features[|rm.features|] == f;
    assert forall i :: 0 <= i < |rm.phases| ==> (Named(rm.phases[i]) <==> Named(rm'.phases[i]));
  }

  lemma {:induction false} GrowsTransitive(a: Roadmap, b: Roadmap, c: Roadmap)
    requires Grows(a, b) && Grows(b, c)
    ensures Grows(a, c)
  {
    forall i | 0 <= i < |a.phases| ensures a.phases[i].features <= c.phases[i].features {
      assert a.phases[i].features <= b.phases[i].features <= c.phases[i].features;
    }
  }

  /** Every titled proposal is represented. */
  predicate Represents(features: seq<Feature>, incoming: seq<Feature>) {
    forall i :: 0 <= i < |incoming| && Trim(incoming[i].title) != "" ==> HasTitle(features, Key(incoming[i].title))
  }

  lemma {:induction false} TitlesStay(a: seq<Feature>, b: seq<Feature>, key: string)
    requires a <= b && HasTitle(a, key)
    ensures HasTitle(b, key)
  {
    var i :| 0 <= i < |a| && Key(a[i].title) == key;
    assert b[i] == a[i];
  }

  lemma {:induction false} RepresentsMore(a: seq<Feature>, b: seq<Feature>, incoming: seq<Feature>, f: Feature)
    requires a <= b && Represents(a, incoming)
    requires Trim(f.title) != "" ==> HasTitle(b, Key(f.title))
    ensures Represents(b, incoming + [f])
  {
    var all := incoming + [f];
    forall i | 0 <= i < |all| && Trim(all[i].title) != "" ensures HasTitle(b, Key(all[i].title)) {
      if i < |incoming| {
        assert all[i] == incoming[i];
        TitlesStay(a, b, Key(incoming[i].title));
      }
    }
  }

  lemma {:induction false} IntakeStep(rm: Roadmap, r: Intake, incoming: seq<Feature>, f: Feature, ids: Ids)
    requires r.rm.phases != []
    requires Grows(rm, r.rm) && |r.rm.features| == |rm.features| + r.added
    requires WellFiled(r.rm, |rm.features|) && Represents(r.rm.features, incoming)
    ensures var r' := IntakeOne(r, f, ids);
            && Grows(rm, r'.rm) && |r'.rm.features| == |rm.features| + r'.added
            && WellFiled(r'.rm, |rm.features|)
            && Represents(r'.rm.features, incoming + [f])
  {
    var r' := IntakeOne(r, f, ids);
    IntakeOneKeeps(r, f, ids);
    IntakeOneFiles(r, f, ids, |rm.features|);
    GrowsTransitive(rm, r.rm, r'.rm);
    RepresentsMore(r.rm.features, r'.rm.features, incoming, f);
  }

  lemma {:induction false} NothingTaken(rm: Roadmap)
    ensures Grows(rm, rm) && WellFiled(rm, |rm.features|) && Represents(rm.features, [])
  {}

  /** Feature intake. For any model output, the roadmap is valid afterwards exactly if it was before; the
      old features stay in front and the phases keep their ids, names and listed features; every added
      feature is listed by the phase it is filed under and its title is no other feature's; and every
      titled proposal is represented. */
  lemma {:induction false} IntakeKeeps(rm: Roadmap, incoming: seq<Feature>, ids: Ids)
    requires rm.phases != []
    ensures var r := TakeIn(rm, incoming, ids);
            && Grows(rm, r.rm) && |r.rm.features| == |rm.features| + r.added
            && WellFiled(r.rm, |rm.features|)
            && Represents(r.rm.features, incoming)
  {
    hide Grows;
    hide WellFiled;
    hide Represents;
    hide IntakeOne;
    if incoming == [] {
      NothingTaken(rm);
    } else {
      var n := |incoming| - 1;
      IntakeKeeps(rm, incoming[..n], ids);
      IntakeStep(rm, TakeIn(rm, incoming[..n], ids), incoming[..n], incoming[n], ids);
      assert incoming[..n] + [incoming[n]] == incoming;
    }
  }

  lemma {:induction false} NothingNew(rm: Roadmap, incoming: seq<Feature>, ids: Ids)
    requires rm.phases != []
    requires Represents(rm.features, incoming)
    ensures TakeIn(rm, incoming, ids) == Intake(rm, 0, 0)
  {
    if incoming == [] {
    } else {
      NothingNew(rm, incoming[..|incoming| - 1], ids);
    }
  }

  /** A second intake of the same output adds nothing and draws no id. */
  lemma {:induction false} IntakeIdempotent(rm: Roadmap, incoming: seq<Feature>, ids: Ids, again: Ids)
    requires rm.phases != []
    ensures TakeIn(TakeIn(rm, incoming, ids).rm, incoming, again) == Intake(TakeIn(rm, incoming, ids).rm, 0, 0)
  {
    IntakeKeeps(rm, incoming, ids);
    NothingNew(TakeIn(rm, incoming, ids).rm, incoming, again);
  }

  // ---- what an intake adds ----

  /** The last phase of this name, up to case and surrounding blanks. */
  predicate LastNamed(phases: seq<Phase>, i: nat, name: string) {
    i < |phases| && Key(phases[i].name) == name && forall j :: i < j < |phases| ==> Key(phases[j].name) != name
  }

  /** The phase id of a feature that names a phase by this text: the text itself where it is a phase's id; else the id
      of the last phase that has it for a name, unless that is blank; else the first phase's. */
  predicate PhaseFor(phases: seq<Phase>, text: string, out: string)
    requires phases != []
  {
    var wanted := Trim(text);
    if wanted != "" && exists i :: 0 <= i < |phases| && phases[i].id == wanted then out == wanted
    else if wanted != "" && exists i :: 0 <= i < |phases| && Key(phases[i].name) == Lower(wanted) then
      exists i :: 0 <= i < |phases| && LastNamed(phases, i, Lower(wanted))
                  && out == if phases[i].id != "" then phases[i].id else phases[0].id
    else out == phases[0].id
  }

  /** The feature that a proposal becomes; `drawn` ids were drawn before. */
  predicate FiledAs(phases: seq<Phase>, f: Feature, ids: Ids, drawn: nat, out: Feature)
    requires phases != []
  {
    && out.id == (if Trim(f.id) != "" then Trim(f.id) else ids(drawn))
    && out.title == Trim(f.title)
    && PhaseFor(phases, f.phaseId, out.phaseId)
    && out.priority == (if Trim(f.priority) != "" then Trim(f.priority) else "should")
    && out.status == (if Trim(f.status) != "" then Trim(f.status) else "planned")
  }

  /** A proposal with a title that neither the roadmap nor an earlier proposal has. */
  predicate NewTitle(features: seq<Feature>, incoming: seq<Feature>, i: nat)
    requires i < |incoming|
  {
    Trim(incoming[i].title) != "" && !HasTitle(features, Key(incoming[i].title))
    && !HasTitle(incoming[..i], Key(incoming[i].title))
  }

  /** How many ids are drawn for the proposals: one for each new one that comes without. */
  function Draws(features: seq<Feature>, incoming: seq<Feature>): nat {
    if incoming == [] then 0
    else
      var n := |incoming| - 1;
      Draws(features, incoming[..n]) + if NewTitle(features, incoming, n) && Trim(incoming[n].id) == "" then 1 else 0
  }

  ghost predicate Chosen(at: seq<nat>, features: seq<Feature>, incoming: seq<Feature>) {
    Increasing(at) && forall i: nat :: i in at <==> i < |incoming| && NewTitle(features, incoming, i)
  }

  predicate FiledFrom(rm: Roadmap, incoming: seq<Feature>, ids: Ids, at: seq<nat>, added: seq<Feature>)
    requires rm.phases != []
  {
    |added| == |at| && forall k :: 0 <= k < |at| ==>
      at[k] < |incoming| && FiledAs(rm.phases, incoming[at[k]], ids, Draws(rm.features, incoming[..at[k]]), added[k])
  }

  ghost predicate TitlesAfter(before: seq<Feature>, incoming: seq<Feature>, after: seq<Feature>) {
    forall key :: HasTitle(after, key) <==> HasTitle(before, key) || (key != "" && HasTitle(incoming, key))
  }

  lemma {:induction false} FiledUnderRight(phases: seq<Phase>, text: string)
    requires phases != []
    ensures PhaseFor(phases, text, FiledUnder(phases, text))
  {
    var wanted := Trim(text);
    var byName := FindLast(phases, Lower(wanted));
    if byName >= 0 {
      assert LastNamed(phases, byName, Lower(wanted));
    }
  }

  lemma {:induction false} PhaseForSame(a: seq<Phase>, b: seq<Phase>, text: string, out: string)
    requires a != [] && SamePhases(a, b) && PhaseFor(b, text, out)
    ensures PhaseFor(a, text, out)
  {
    hide Key;
    hide Trim;
    var wanted := Trim(text);
    if i :| 0 <= i < |b| && LastNamed(b, i, Lower(wanted)) {
      assert LastNamed(a, i, Lower(wanted));
    }
  }

  lemma {:induction false} NewTitleFront(features: seq<Feature>, incoming: seq<Feature>, n: nat, i: nat)
    requires i < n <= |incoming|
    ensures NewTitle(features, incoming[..n], i) <==> NewTitle(features, incoming, i)
  {
    assert incoming[..n][..i] == incoming[..i];
  }

  lemma {:induction false} ChosenSnoc(at: seq<nat>, features: seq<Feature>, incoming: seq<Feature>)
    requires incoming != [] && Chosen(at, features, incoming[..|incoming| - 1])
    ensures var n := |incoming| - 1;
            Chosen(if NewTitle(features, incoming, n) then at + [n] else at, features, incoming)
  {
    var n := |incoming| - 1;
    forall i: nat | i < n ensures NewTitle(features, incoming[..n], i) <==> NewTitle(features, incoming, i) {
      NewTitleFront(features, incoming, n, i);
    }
    hide NewTitle;
    IncreasingSnoc(at, n);
    assert forall i: nat :: i in at + [n] <==> i in at || i == n;
  }

  /** One round by the fields of the proposal. */
  lemma {:induction false} RoundAdds(r: Intake, f: Feature, ids: Ids) returns (out: Feature)
    requires r.rm.phases != []
    ensures var r' := IntakeOne(r, f, ids);
            if Trim(f.title) == "" || HasTitle(r.rm.features, Key(f.title)) then r' == r
            else
              && FiledAs(r.rm.phases, f, ids, r.drawn, out)
              && r'.rm.features == r.rm.features + [out] && r'.added == r.added + 1
              && r'.drawn == r.drawn + if Trim(f.id) == "" then 1 else 0
  {
    FiledUnderRight(r.rm.phases, f.phaseId);
    hide FiledUnder;
    hide PhaseFor;
    hide Trim;
    hide Key;
    var r' := IntakeOne(r, f, ids);
    out := f;
    if !Skips(r.rm.features, f) {
      out := r'.rm.features[|r.rm.features|];
    }
  }

  lemma {:induction false} TitlesSnoc(features: seq<Feature>, incoming: seq<Feature>, f: Feature, sofar: seq<Feature>,
                                      after: seq<Feature>)
    requires TitlesAfter(features, incoming, sofar)
    requires if Trim(f.title) == "" || HasTitle(sofar, Key(f.title)) then after == sofar
             else exists out: Feature :: Key(out.title) == Key(f.title) && after == sofar + [out]
    ensures TitlesAfter(features, incoming + [f], after)
  {
    KeyBlank(f.title);
    HasTitleSnoc(incoming, f);
    forall out: Feature
      ensures forall key :: HasTitle(sofar + [out], key) <==> HasTitle(sofar, key) || key == Key(out.title)
    {
      HasTitleSnoc(sofar, out);
    }
    hide HasTitle;
    hide Key;
    hide Trim;
  }

  lemma {:induction false} NewByTitles(features: seq<Feature>, incoming: seq<Feature>, sofar: seq<Feature>)
    requires incoming != [] && TitlesAfter(features, incoming[..|incoming| - 1], sofar)
    ensures var n := |incoming| - 1;
            NewTitle(features, incoming, n) <==>
              Trim(incoming[n].title) != "" && !HasTitle(sofar, Key(incoming[n].title))
  {
    KeyBlank(incoming[|incoming| - 1].title);
    hide HasTitle;
    hide Key;
    hide Trim;
  }

  /** The features added so far are, in order, exactly the proposals with a new title, each as it is filed. */
  ghost predicate Adds(rm: Roadmap, incoming: seq<Feature>, ids: Ids, r: Intake, at: seq<nat>, added: seq<Feature>)
    requires rm.phases != []
  {
    && Chosen(at, rm.features, incoming) && FiledFrom(rm, incoming, ids, at, added)
    && r.rm.features == rm.features + added && r.added == |at| && r.drawn == Draws(rm.features, incoming)
    && TitlesAfter(rm.features, incoming, r.rm.features)
  }

  lemma {:induction false} FiledSnoc(rm: Roadmap, incoming: seq<Feature>, ids: Ids, at: seq<nat>, added: seq<Feature>,
                                     out: Feature)
    requires rm.phases != [] && incoming != [] && FiledFrom(rm, incoming, ids, at, added)
    requires var n := |incoming| - 1; FiledAs(rm.phases, incoming[n], ids, Draws(rm.features, incoming[..n]), out)
    ensures FiledFrom(rm, incoming, ids, at + [|incoming| - 1], added + [out])
  {
    hide FiledAs;
    hide Draws;
  }

  lemma {:induction false} AddsStep(rm: Roadmap, incoming: seq<Feature>, ids: Ids, r: Intake, at: seq<nat>,
                                    added: seq<Feature>)
      returns (at': seq<nat>, added': seq<Feature>)
    requires rm.phases != [] && incoming != [] && SamePhases(rm.phases, r.rm.phases)
    requires Adds(rm, incoming[..|incoming| - 1], ids, r, at, added)
    ensures Adds(rm, incoming, ids, IntakeOne(r, incoming[|incoming| - 1], ids), at', added')
  {
    hide IntakeOne;
    hide NewTitle;
    hide FiledAs;
    hide FiledFrom;
    hide Chosen;
    hide TitlesAfter;
    hide HasTitle;
    hide Trim;
    hide Key;
    var n := |incoming| - 1;
    var front, f := incoming[..n], incoming[n];
    ChosenSnoc(at, rm.features, incoming);
    NewByTitles(rm.features, incoming, r.rm.features);
    var out := RoundAdds(r, f, ids);
    FiledLonger(rm, incoming, ids, at, added);
    assert incoming == front + [f];
    at', added' := at, added;
    var r' := IntakeOne(r, f, ids);
    if NewTitle(rm.features, incoming, n) {
      FiledSame(rm.phases, r.rm.phases, f, ids, r.drawn, out);
      FiledSnoc(rm, incoming, ids, at, added, out);
      FiledKey(r.rm.phases, f, ids, r.drawn, out);
      at', added' := at + [n], added + [out];
      assert rm.features + added + [out] == rm.features + added';
    }
    TitlesSnoc(rm.features, front, f, r.rm.features, r'.rm.features);
  }

  lemma {:induction false} FiledKey(phases: seq<Phase>, f: Feature, ids: Ids, drawn: nat, out: Feature)
    requires phases != [] && FiledAs(phases, f, ids, drawn, out)
    ensures Key(out.title) == Key(f.title)
  {
    KeyBlank(f.title);
  }

  /** What an intake adds. The added features are, in order, exactly the proposals with a new title, each trimmed, with
      its own id or the next one drawn, filed under the phase that it names, and planned as a `should` where it does
      not say otherwise. */
  lemma {:induction false} TakeInAdds(rm: Roadmap, incoming: seq<Feature>, ids: Ids)
      returns (at: seq<nat>, added: seq<Feature>)
    requires rm.phases != []
    ensures Adds(rm, incoming, ids, TakeIn(rm, incoming, ids), at, added)
  {
    hide IntakeOne;
    at, added := [], [];
    if incoming == [] {
    } else {
      var front := incoming[..|incoming| - 1];
      at, added := TakeInAdds(rm, front, ids);
      IntakeKeeps(rm, front, ids);
      hide Adds;
      at, added := AddsStep(rm, incoming, ids, TakeIn(rm, front, ids), at, added);
    }
  }

  lemma {:induction false} FiledSame(a: seq<Phase>, b: seq<Phase>, f: Feature, ids: Ids, drawn: nat, out: Feature)
    requires a != [] && SamePhases(a, b) && FiledAs(b, f, ids, drawn, out)
    ensures FiledAs(a, f, ids, drawn, out)
  {
    PhaseForSame(a, b, f.phaseId, out.phaseId);
  }

  lemma {:induction false} FiledLonger(rm: Roadmap, incoming: seq<Feature>, ids: Ids, at: seq<nat>,
                                       added: seq<Feature>)
    requires rm.phases != [] && incoming != [] && FiledFrom(rm, incoming[..|incoming| - 1], ids, at, added)
    ensures FiledFrom(rm, incoming, ids, at, added)
  {
    hide FiledAs;
    var front := incoming[..|incoming| - 1];
    forall k | 0 <= k < |at| ensures front[..at[k]] == incoming[..at[k]] {
      assert at[k] < |front|;
    }
  }

  // ---- where it is listed ----

  /** The ids of the features filed under the phase at this position, in order. */
  function IdsUnder(phases: seq<Phase>, features: seq<Feature>, i: nat): seq<string> {
    if features == [] then []
    else
      var f := features[|features| - 1];
      IdsUnder(phases, features[..|features| - 1], i) + if PhaseAt(phases, f.phaseId) == i then [f.id] else []
  }

  /** Each phase lists what it listed before and then the ids of the added features filed under it. */
  predicate ListsAdded(rm: Roadmap, out: Roadmap) {
    && |out.phases| == |rm.phases| && rm.features <= out.features
    && forall i :: 0 <= i < |rm.phases| ==>
         out.phases[i] == rm.phases[i].(features :=
           rm.phases[i].features + IdsUnder(rm.phases, out.features[|rm.features|..], i))
  }

  lemma {:induction false} IdsSnoc(phases: seq<Phase>, features: seq<Feature>, f: Feature, i: nat)
    ensures IdsUnder(phases, features + [f], i)
            == IdsUnder(phases, features, i) + if PhaseAt(phases, f.phaseId) == i then [f.id] else []
  {
    assert (features + [f])[..|features|] == features;
  }

  lemma {:induction false} ListsSame(rm: Roadmap, out: Roadmap, id: string)
    requires ListsAdded(rm, out)
    ensures PhaseAt(out.phases, id) == PhaseAt(rm.phases, id)
  {
    hide IdsUnder;
    hide PhaseAt;
    SamePhaseAt(rm.phases, out.phases, id);
  }

  lemma {:induction false} ListsOne(rm: Roadmap, sofar: Roadmap, out: Feature)
    requires ListsAdded(rm, sofar)
    ensures ListsAdded(rm, Roadmap(File(sofar.phases, out.phaseId, out.id), sofar.features + [out]))
  {
    hide IdsUnder;
    hide PhaseAt;
    var n := |rm.features|;
    var added := sofar.features[n..];
    assert (sofar.features + [out])[n..] == added + [out];
    ListsSame(rm, sofar, out.phaseId);
    forall i | 0 <= i < |rm.phases|
      ensures IdsUnder(rm.phases, added + [out], i)
              == IdsUnder(rm.phases, added, i) + if PhaseAt(rm.phases, out.phaseId) == i then [out.id] else []
    {
      IdsSnoc(rm.phases, added, out, i);
    }
  }

  /** An added feature is listed once, at the end, by the first phase with the id it is filed under, and by no other. */
  lemma {:induction false} TakeInLists(rm: Roadmap, incoming: seq<Feature>, ids: Ids)
    requires rm.phases != []
    ensures ListsAdded(rm, TakeIn(rm, incoming, ids).rm)
  {
    hide Trim;
    hide Key;
    hide FiledUnder;
    if incoming == [] {
      assert rm.features[|rm.features|..] == [];
    } else {
      var n := |incoming| - 1;
      TakeInLists(rm, incoming[..n], ids);
      hide ListsAdded;
      hide File;
      var r := TakeIn(rm, incoming[..n], ids);
      var r' := IntakeOne(r, incoming[n], ids);
      if !Skips(r.rm.features, incoming[n]) {
        ListsOne(rm, r.rm, r'.rm.features[|r.rm.features|]);
      }
    }
  }
}
