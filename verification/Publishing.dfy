/** Publishing a roadmap as issues on the linked repository, over any number of partially failing runs. */
module Publishing {
  import opened Options
  import opened Text
  import opened Sorting
  import opened RoadmapPhases
  import opened RoadmapFeatures

  /** One entry of the stored publish record. */
  datatype Issue = Issue(featureId: string, number: int, url: string, title: string)

  // ---- the publish record ----

  /** `publishedIssuesFor`: entries without a feature id are dropped, and the last entry for an id counts. */
  function ReadRecord(record: seq<Issue>): map<string, Issue> {
    if record == [] then map[]
    else
      var already, last := ReadRecord(record[..|record| - 1]), record[|record| - 1];
      if last.featureId == "" then already else already[last.featureId := last]
  }

  predicate IssueLe(a: Issue, b: Issue) {
    StringLe(a.featureId, b.featureId)
  }

  /** Every entry of a published map is filed under its own, non-blank feature id. */
  predicate Keyed(already: map<string, Issue>) {
    forall id :: id in already ==> id != "" && already[id].featureId == id
  }

  lemma {:induction false} ReadRecordKeyed(record: seq<Issue>)
    ensures Keyed(ReadRecord(record))
  {
    if record == [] {
    } else {
      ReadRecordKeyed(record[..|record| - 1]);
    }
  }

  lemma {:induction false} ReadNext(record: seq<Issue>, id: string)
    requires record != []
    ensures var front, last := ReadRecord(record[..|record| - 1]), record[|record| - 1];
            && (id in ReadRecord(record) <==> id in front || last.featureId == id != "")
            && (id in ReadRecord(record) ==>
                  ReadRecord(record)[id] == if last.featureId == id then last else front[id])
  {
    ReadRecordKeyed(record[..|record| - 1]);
  }

  predicate HasEntry(record: seq<Issue>, id: string) {
    exists i :: 0 <= i < |record| && record[i].featureId == id
  }

  predicate LastEntry(record: seq<Issue>, i: nat, id: string) {
    i < |record| && record[i].featureId == id && forall j :: i < j < |record| ==> record[j].featureId != id
  }

  lemma {:induction false} EntryNext(record: seq<Issue>, id: string)
    requires record != []
    ensures var n := |record| - 1;
            && (HasEntry(record, id) <==> HasEntry(record[..n], id) || record[n].featureId == id)
            && forall i: nat :: LastEntry(record, i, id) <==>
                 if record[n].featureId == id then i == n else i < n && LastEntry(record[..n], i, id)
  {
    var n := |record| - 1;
    if i :| 0 <= i < |record| && record[i].featureId == id {
      assert i < n ==> record[..n][i].featureId == id;
    }
  }

  /** Reading a stored list: under each non-blank feature id its last entry, and nothing else. */
  lemma {:induction false} ReadsLastEntry(record: seq<Issue>, id: string)
    ensures id in ReadRecord(record) <==> id != "" && HasEntry(record, id)
    ensures forall i: nat :: LastEntry(record, i, id) && id in ReadRecord(record) ==>
              ReadRecord(record)[id] == record[i]
  {
    hide ReadRecord;
    hide HasEntry;
    hide LastEntry;
    if record == [] {
      NothingRead(id);
    } else {
      var n := |record| - 1;
      ReadsLastEntry(record[..n], id);
      ReadNext(record, id);
      EntryNext(record, id);
    }
  }

  lemma {:induction false} NothingRead(id: string)
    ensures id !in ReadRecord([]) && !HasEntry([], id)
  {}

  /** A list that holds exactly a map's entries. */
  ghost predicate Lists(record: seq<Issue>, already: map<string, Issue>) {
    && (forall i :: 0 <= i < |record| ==> record[i].featureId in already && already[record[i].featureId] == record[i])
    && (forall id :: id in already ==> already[id] in record)
  }

  lemma {:induction false} ReadLast(record: seq<Issue>, already: map<string, Issue>, id: string)
    requires forall i :: 0 <= i < |record| ==>
               record[i].featureId in already && already[record[i].featureId] == record[i]
    requires Keyed(already)
    ensures id in ReadRecord(record) <==> id in already && already[id] in record
    ensures id in ReadRecord(record) ==> ReadRecord(record)[id] == already[id]
  {
    if record == [] {
    } else {
      var n := |record| - 1;
      ReadLast(record[..n], already, id);
      assert record == record[..n] + [record[n]];
    }
  }

  /** Reading back the list of a map's entries, in whatever order, gives the map. */
  lemma {:induction false} ReadLists(record: seq<Issue>, already: map<string, Issue>)
    requires Lists(record, already) && Keyed(already)
    ensures ReadRecord(record) == already
  {
    forall id ensures id in ReadRecord(record) <==> id in already {
      ReadLast(record, already, id);
    }
    forall id | id in already ensures ReadRecord(record)[id] == already[id] {
      ReadLast(record, already, id);
    }
  }

  lemma {:induction false} IssueOrder()
    ensures TotalPreorder(IssueLe)
  {
    forall a: Issue, b: Issue ensures IssueLe(a, b) || IssueLe(b, a) {
      StringTotal(a.featureId, b.featureId);
    }
    forall a: Issue, b: Issue, c: Issue | IssueLe(a, b) && IssueLe(b, c) ensures IssueLe(a, c) {
      StringTransitive(a.featureId, b.featureId, c.featureId);
    }
  }

  /** Writes the record as a list sorted by feature id. */
  method WriteRecord(already: map<string, Issue>) returns (record: seq<Issue>)
    requires Keyed(already)
    ensures ReadRecord(record) == already
    ensures forall i, j :: 0 <= i < j < |record| ==> StringLe(record[i].featureId, record[j].featureId)
  {
    var list: seq<Issue> := [];
    var rest := already.Keys;
    while rest != {}
      invariant rest <= already.Keys
      invariant forall i :: 0 <= i < |list| ==> list[i].featureId in already && already[list[i].featureId] == list[i]
      invariant forall id :: id in already && id !in rest ==> already[id] in list
      decreases rest
    {
      var id :| id in rest;
      list := list + [already[id]];
      rest := rest - {id};
    }
    record := Sort(list, IssueLe);
    SortPermutes(list, IssueLe);
    forall i | 0 <= i < |record| ensures record[i].featureId in already && already[record[i].featureId] == record[i] {
      assert record[i] in record;
    }
    ReadLists(record, already);
    IssueOrder();
    SortSorts(list, IssueLe);
    forall i, j | 0 <= i < j < |record| ensures StringLe(record[i].featureId, record[j].featureId) {
      assert IssueLe(record[i], record[j]);
    }
  }

  // ---- one publish run ----

  /** What becomes of a call that asks the peer to create an issue: the peer refuses it; or it creates the issue
      but the answer is lost on the way, by a timeout or an unreadable body; or it creates it and says so. The
      caller cannot tell the first two apart. */
  datatype Answer = Refusal | Lost | Created(number: int, url: string)

  /** The answers of a run, by the position of the feature asked for; any behaviour at all. */
  type Peer = nat -> Answer

  /** An issue that the repository received: for which feature id, and whether the caller learned of it. */
  datatype Landing = Landing(id: string, acknowledged: bool)

  predicate FeatureLe(a: Feature, b: Feature) {
    if a.phaseId != b.phaseId then StringLe(a.phaseId, b.phaseId) else StringLe(a.id, b.id)
  }

  /** A run in progress: the published map, the issues landed so far, and the three counts. */
  datatype Progress = Progress(already: map<string, Issue>, landed: seq<Landing>, created: nat, skipped: nat,
                               failures: nat)

  predicate Publishable(f: Feature) {
    Trim(f.id) != "" && Trim(f.title) != ""
  }

  function PublishOne(r: Progress, f: Feature, answer: Answer): Progress {
    var id := Trim(f.id);
    if !Publishable(f) || id in r.already then r.(skipped := r.skipped + 1)
    else
      match answer
      case Refusal => r.(failures := r.failures + 1)
      case Lost => r.(failures := r.failures + 1, landed := r.landed + [Landing(id, false)])
      case Created(number, url) =>
        r.(already := r.already[id := Issue(id, number, url, Trim(f.title))],
           landed := r.landed + [Landing(id, true)], created := r.created + 1)
  }

  function PublishAll(already: map<string, Issue>, features: seq<Feature>, peer: Peer): Progress {
    if features == [] then Progress(already, [], 0, 0, 0)
    else
      var n := |features| - 1;
      PublishOne(PublishAll(already, features[..n], peer), features[n], peer(n))
  }

  /** A roadmap document with its publish record, and the issues the repository has received from it. */
  datatype Doc = Doc(rm: Roadmap, published: map<string, Issue>, landed: seq<Landing>)

  predicate Refused(rm: Roadmap) {
    rm.features == [] || !Valid(rm)
  }

  function Attempt(d: Doc, peer: Peer): Progress {
    if Refused(d.rm) then Progress(d.published, [], 0, 0, 0)
    else PublishAll(d.published, Sort(d.rm.features, FeatureLe), peer)
  }

  function Publish(d: Doc, peer: Peer): Doc {
    var r := Attempt(d, peer);
    d.(published := r.already, landed := d.landed + r.landed)
  }

  // ---- the run as it happens ----

  class RoadmapStore {
    var rm: Roadmap
    var record: seq<Issue>
    /** The issues the repository has received, in order. */
    var landed: seq<Landing>

    function Value(): Doc
      reads this
    {
      Doc(rm, ReadRecord(record), landed)
    }

    /** The peer creates an issue or not; the caller gets a number and a url, or an error. */
    method CreateIssue(peer: Peer, i: nat, id: string) returns (res: Option<(int, string)>)
      modifies this`landed
      ensures res == if peer(i).Created? then Some((peer(i).number, peer(i).url)) else None
      ensures landed == old(landed) + if peer(i).Refusal? then [] else [Landing(id, peer(i).Created?)]
    {
      match peer(i) {
        case Refusal =>
          res := None;
        case Lost =>
          landed := landed + [Landing(id, false)];
          res := None;
        case Created(number, url) =>
          landed := landed + [Landing(id, true)];
          res := Some((number, url));
      }
    }

    method PublishFeatures(peer: Peer, features: seq<Feature>, already0: map<string, Issue>)
        returns (already: map<string, Issue>, created: nat, skipped: nat, failures: nat)
      modifies this`landed
      ensures var r := PublishAll(already0, features, peer);
              already == r.already && created == r.created && skipped == r.skipped && failures == r.failures
              && landed == old(landed) + r.landed
    {
      already, created, skipped, failures := already0, 0, 0, 0;
      for i := 0 to |features|
        invariant var r := PublishAll(already0, features[..i], peer);
                  already == r.already && created == r.created && skipped == r.skipped && failures == r.failures
                  && landed == old(landed) + r.landed
      {
        assert features[..i + 1][..i] == features[..i];
        var f := features[i];
        var fid := Trim(f.id);
        if fid == "" {
          skipped := skipped + 1;
        } else if fid in already {
          skipped := skipped + 1;
        } else if Trim(f.title) == "" {
          skipped := skipped + 1;
        } else {
          var res := CreateIssue(peer, i, fid);
          if res.None? {
            failures := failures + 1;
          } else {
            already := already[fid := Issue(fid, res.value.0, res.value.1, Trim(f.title))];
            created := created + 1;
          }
        }
      }
      assert features[..|features|] == features;
    }

    method RunPublish(peer: Peer) returns (created: nat, skipped: nat, failures: nat)
      modifies this
      ensures Value() == Publish(old(Value()), peer)
      ensures var r := Attempt(old(Value()), peer);
              created == r.created && skipped == r.skipped && failures == r.failures
    {
      created, skipped, failures := 0, 0, 0;
      if |rm.features| == 0 {
        return;
      }
      var valid := ValidateRoadmapJSON(rm);
      if !valid {
        return;
      }
      var already := ReadRecord(record);
      ReadRecordKeyed(record);
      PublishKeyed(already, Sort(rm.features, FeatureLe), peer);
      already, created, skipped, failures := PublishFeatures(peer, Sort(rm.features, FeatureLe), already);
      record := WriteRecord(already);
    }
  }

  lemma {:induction false} PublishKeyed(already: map<string, Issue>, features: seq<Feature>, peer: Peer)
    requires Keyed(already)
    ensures Keyed(PublishAll(already, features, peer).already)
  {
    if features == [] {
    } else {
      PublishKeyed(already, features[..|features| - 1], peer);
    }
  }

  // ---- what one run does ----

  /** How many issues the caller learned of. */
  function Acknowledged(landed: seq<Landing>): nat {
    if landed == [] then 0
    else Acknowledged(landed[..|landed| - 1]) + if landed[|landed| - 1].acknowledged then 1 else 0
  }

  /** No issue lands for an id once the caller has learned of one. */
  predicate NoneAfterAcknowledged(landed: seq<Landing>) {
    forall i, j :: 0 <= i < j < |landed| && landed[i].id == landed[j].id ==> !landed[i].acknowledged
  }

  /** Nothing landed for an id that was on record, nor after it was acknowledged; the record grew by exactly the
      acknowledged ids. */
  ghost predicate Accounted(already: map<string, Issue>, r: Progress) {
    && NoneAfterAcknowledged(r.landed)
    && (forall i :: 0 <= i < |r.landed| ==> r.landed[i].id !in already)
    && (forall id :: id in r.already <==> id in already || Landing(id, true) in r.landed)
    && (forall id :: id in already ==> r.already[id] == already[id])
  }

  predicate Covered(f: Feature, already: map<string, Issue>) {
    Publishable(f) ==> Trim(f.id) in already
  }

  lemma {:induction false} CoveredStays(f: Feature, a: map<string, Issue>, b: map<string, Issue>)
    requires Covered(f, a) && a.Keys <= b.Keys
    ensures Covered(f, b)
  {}

  lemma {:induction false} AcknowledgedSnoc(landed: seq<Landing>, l: Landing)
    ensures Acknowledged(landed + [l]) == Acknowledged(landed) + if l.acknowledged then 1 else 0
  {
    assert (landed + [l])[..|landed|] == landed;
  }

  lemma {:induction false} PublishOneSpec(already: map<string, Issue>, r: Progress, f: Feature, answer: Answer)
    requires Accounted(already, r)
    ensures var r' := PublishOne(r, f, answer);
            && Accounted(already, r') && r.already.Keys <= r'.already.Keys
            && r'.created + r'.skipped + r'.failures == r.created + r.skipped + r.failures + 1
            && r'.created - r.created == Acknowledged(r'.landed) - Acknowledged(r.landed)
            && r.failures <= r'.failures
            && (r.failures == r'.failures ==> Covered(f, r'.already))
  {
    hide TrimLeft;
    hide TrimRight;
    hide Acknowledged;
    AcknowledgedSnoc(r.landed, Landing(Trim(f.id), true));
    AcknowledgedSnoc(r.landed, Landing(Trim(f.id), false));
  }

  /** How one feature is counted: skipped without an id, without a title or on record; failed where the call gave no
      answer; created where it did. Only an answer goes on record. */
  lemma {:induction false} CountedAs(r: Progress, f: Feature, answer: Answer)
    ensures var r' := PublishOne(r, f, answer);
            var skips := Trim(f.id) == "" || Trim(f.title) == "" || Trim(f.id) in r.already;
            && (r'.skipped == r.skipped + if skips then 1 else 0)
            && (r'.created == r.created + if !skips && answer.Created? then 1 else 0)
            && (r'.failures == r.failures + if !skips && !answer.Created? then 1 else 0)
            && (skips || !answer.Created? ==> r'.already == r.already)
            && (skips || answer.Refusal? ==> r'.landed == r.landed)
            && (!skips && !answer.Refusal? ==> r'.landed == r.landed + [Landing(Trim(f.id), answer.Created?)])
  {
    hide Trim;
  }

  lemma {:induction false} NothingPublished(already: map<string, Issue>)
    ensures Accounted(already, Progress(already, [], 0, 0, 0)) && Acknowledged([]) == 0
  {}

  /** No issue lands for an id on record, nor after an acknowledged one; the record grows by exactly the acknowledged
      ids, which are those counted as created; the counts account for every feature; and without failures nothing
      publishable is left. */
  lemma {:induction false} PublishAllSpec(already: map<string, Issue>, features: seq<Feature>, peer: Peer)
    ensures var r := PublishAll(already, features, peer);
            && r.created + r.skipped + r.failures == |features|
            && r.created == Acknowledged(r.landed)
            && Accounted(already, r)
            && (r.failures == 0 ==> forall i :: 0 <= i < |features| ==> Covered(features[i], r.already))
  {
    hide PublishOne;
    hide Accounted;
    hide Covered;
    hide Acknowledged;
    if features == [] {
      NothingPublished(already);
    } else {
      var n := |features| - 1;
      var r := PublishAll(already, features[..n], peer);
      PublishAllSpec(already, features[..n], peer);
      PublishOneSpec(already, r, features[n], peer(n));
      var r' := PublishOne(r, features[n], peer(n));
      if r'.failures == 0 {
        forall i | 0 <= i < n ensures Covered(features[i], r'.already) {
          assert Covered(features[..n][i], r.already);
          CoveredStays(features[i], r.already, r'.already);
        }
      }
    }
  }

  lemma {:induction false} EntryOne(r: Progress, f: Feature, answer: Answer, id: string)
    ensures var r' := PublishOne(r, f, answer);
            if id in r.already || id !in r'.already then (id in r.already ==> r'.already[id] == r.already[id])
            else Trim(f.id) == id != "" && Trim(f.title) != "" && answer.Created?
                 && r'.already[id] == Issue(id, answer.number, answer.url, Trim(f.title))
  {
    hide TrimLeft;
    hide TrimRight;
  }

  /** What a new entry of the record holds: the number and the url that the peer answered for the feature of that id,
      and the feature's title. */
  lemma {:induction false} EntryKeepsAnswer(already: map<string, Issue>, features: seq<Feature>, peer: Peer, id: string)
      returns (n: nat)
    requires id !in already && id in PublishAll(already, features, peer).already
    ensures n < |features| && Trim(features[n].id) == id != "" && Trim(features[n].title) != "" && peer(n).Created?
    ensures PublishAll(already, features, peer).already[id]
            == Issue(id, peer(n).number, peer(n).url, Trim(features[n].title))
  {
    hide PublishOne;
    hide Trim;
    n := |features| - 1;
    var r := PublishAll(already, features[..n], peer);
    EntryOne(r, features[n], peer(n), id);
    if id in r.already {
      n := EntryKeepsAnswer(already, features[..n], peer, id);
    }
  }

  /** A run on a roadmap without features, without phases, with an unnamed phase, or with a feature that names a phase
      that is not there, publishes nothing and changes nothing; any other attempts the features in their order. */
  lemma {:induction false} RefusedRun(d: Doc, peer: Peer)
    ensures (d.rm.features == [] || d.rm.phases == []
             || (exists i :: 0 <= i < |d.rm.phases| && Trim(d.rm.phases[i].name) == "")
             || exists i :: 0 <= i < |d.rm.features| && Trim(d.rm.features[i].phaseId) != ""
                            && forall j :: 0 <= j < |d.rm.phases| ==>
                                 Trim(d.rm.phases[j].id) != Trim(d.rm.features[i].phaseId))
            <==> Refused(d.rm)
    ensures Refused(d.rm) ==> Publish(d, peer) == d && Attempt(d, peer) == Progress(d.published, [], 0, 0, 0)
    ensures !Refused(d.rm) ==>
              Publish(d, peer).published == PublishAll(d.published, Sort(d.rm.features, FeatureLe), peer).already
  {
    hide Trim;
    assert d.landed + [] == d.landed;
  }

  /** Conservation: in every run that is not refused, created, skipped and failed features add up to the
      roadmap's features; and a run without failures leaves no publishable feature unpublished. */
  lemma {:induction false} RunAccounts(d: Doc, peer: Peer)
    requires !Refused(d.rm)
    ensures var r := Attempt(d, peer);
            && r.created + r.skipped + r.failures == |d.rm.features|
            && (r.failures == 0 ==>
                  forall f :: f in d.rm.features && Publishable(f) ==> Trim(f.id) in r.already)
  {
    var sorted := Sort(d.rm.features, FeatureLe);
    SortPermutes(d.rm.features, FeatureLe);
    PublishAllSpec(d.published, sorted, peer);
    if Attempt(d, peer).failures == 0 {
      forall f | f in d.rm.features && Publishable(f) ensures Trim(f.id) in Attempt(d, peer).already {
        assert f in sorted;
        var i :| 0 <= i < |sorted| && sorted[i] == f;
      }
    }
  }

  lemma {:induction false} FeatureOrder()
    ensures TotalPreorder(FeatureLe)
  {
    forall a: Feature, b: Feature ensures FeatureLe(a, b) || FeatureLe(b, a) {
      StringTotal(a.phaseId, b.phaseId);
      StringTotal(a.id, b.id);
    }
    forall a: Feature, b: Feature, c: Feature | FeatureLe(a, b) && FeatureLe(b, c) ensures FeatureLe(a, c) {
      FeatureLeTransitive(a, b, c);
    }
  }

  /** The features are attempted in a fixed order, by phase and then by id, whatever order the roadmap
      holds them in; those of one phase and id in the roadmap's order. */
  lemma {:induction false} AttemptsInOrder(features: seq<Feature>)
    ensures var sorted := Sort(features, FeatureLe);
            forall i, j :: 0 <= i < j < |sorted| ==>
              StringLe(sorted[i].phaseId, sorted[j].phaseId)
              && (sorted[i].phaseId == sorted[j].phaseId ==> StringLe(sorted[i].id, sorted[j].id))
    ensures multiset(Sort(features, FeatureLe)) == multiset(features)
    ensures forall f :: Level(Sort(features, FeatureLe), f, FeatureLe) == Level(features, f, FeatureLe)
  {
    FeatureOrder();
    forall f ensures Level(Sort(features, FeatureLe), f, FeatureLe) == Level(features, f, FeatureLe) {
      SortStable(features, f, FeatureLe);
    }
    SortSorts(features, FeatureLe);
    SortPermutes(features, FeatureLe);
    var sorted := Sort(features, FeatureLe);
    forall i, j | 0 <= i < j < |sorted|
      ensures StringLe(sorted[i].phaseId, sorted[j].phaseId)
      ensures sorted[i].phaseId == sorted[j].phaseId ==> StringLe(sorted[i].id, sorted[j].id)
    {
      assert FeatureLe(sorted[i], sorted[j]);
      StringTotal(sorted[i].phaseId, sorted[i].phaseId);
    }
  }

  lemma {:induction false} FeatureLeTransitive(a: Feature, b: Feature, c: Feature)
    requires FeatureLe(a, b) && FeatureLe(b, c)
    ensures FeatureLe(a, c)
  {
    if a.phaseId == b.phaseId == c.phaseId {
      StringTransitive(a.id, b.id, c.id);
    } else if a.phaseId != b.phaseId && b.phaseId != c.phaseId {
      StringTransitive(a.phaseId, b.phaseId, c.phaseId);
      StringTotal(a.phaseId, b.phaseId);
    }
  }

  // ---- many runs ----

  datatype Step =
    | PublishRun(peer: Peer)
    | FeatureIntake(incoming: seq<Feature>, ids: Ids)
    | PhaseMerge(proposed: seq<Phase>, ids: Ids)

  /** The steps that may come between publish runs change the roadmap but keep its publish record. */
  function Exec(d: Doc, s: Step): Doc {
    match s
    case PublishRun(peer) => Publish(d, peer)
    case FeatureIntake(incoming, ids) =>
      if d.rm.phases == [] then d else d.(rm := TakeIn(d.rm, incoming, ids).rm)
    case PhaseMerge(proposed, ids) =>
      d.(rm := d.rm.(phases := Merge(d.rm.phases, proposed, ids).phases))
  }

  function Run(d: Doc, steps: seq<Step>): Doc {
    if steps == [] then d else Exec(Run(d, steps[..|steps| - 1]), steps[|steps| - 1])
  }

  // ---- at most once, exactly ----

  /** At most one issue landed for the id. */
  predicate Single(landed: seq<Landing>, id: string) {
    forall i, j :: 0 <= i < j < |landed| ==> !(landed[i].id == landed[j].id == id)
  }

  /** An issue for the id lands although the answer to an earlier one was lost. */
  predicate LandsAfterLost(landed: seq<Landing>, id: string) {
    exists i, j :: 0 <= i < j < |landed| && landed[i] == Landing(id, false) && landed[j].id == id
  }

  ghost predicate NeverLoses(peer: Peer) {
    forall n: nat :: !peer(n).Lost?
  }

  /** No answer of any run is lost. */
  ghost predicate NothingLost(steps: seq<Step>) {
    forall k :: 0 <= k < |steps| && steps[k].PublishRun? ==> NeverLoses(steps[k].peer)
  }

  /** What holds whatever is lost: no issue lands for an id that was on record to begin with, nor after one that was
      acknowledged, and the record holds exactly the ids it started with and the acknowledged ones. */
  ghost predicate Kept(published: map<string, Issue>, d: Doc) {
    && NoneAfterAcknowledged(d.landed)
    && (forall i :: 0 <= i < |d.landed| ==> d.landed[i].id !in published)
    && (forall id :: id in d.published <==> id in published || Landing(id, true) in d.landed)
  }

  lemma {:induction false} NoneAfterAppend(a: seq<Landing>, b: seq<Landing>)
    requires NoneAfterAcknowledged(a) && NoneAfterAcknowledged(b)
    requires forall i, j :: 0 <= i < |a| && 0 <= j < |b| && a[i].id == b[j].id ==> !a[i].acknowledged
    ensures NoneAfterAcknowledged(a + b)
  {}

  lemma {:induction false} PublishKeeps(published: map<string, Issue>, d: Doc, peer: Peer)
    requires Kept(published, d)
    ensures Kept(published, Publish(d, peer))
  {
    PublishAllSpec(d.published, Sort(d.rm.features, FeatureLe), peer);
    var r := Attempt(d, peer);
    assert Accounted(d.published, r);
    hide PublishAll;
    hide Attempt;
    forall i, j | 0 <= i < |d.landed| && 0 <= j < |r.landed| && d.landed[i].id == r.landed[j].id
      ensures !d.landed[i].acknowledged
    {
      assert d.landed[i] in d.landed;
    }
    NoneAfterAppend(d.landed, r.landed);
    hide NoneAfterAcknowledged;
  }

  lemma {:induction false} RunKeeps(rm: Roadmap, published: map<string, Issue>, steps: seq<Step>)
    ensures Kept(published, Run(Doc(rm, published, []), steps))
  {
    if steps == [] {
    } else {
      var d := Run(Doc(rm, published, []), steps[..|steps| - 1]);
      RunKeeps(rm, published, steps[..|steps| - 1]);
      if steps[|steps| - 1].PublishRun? {
        PublishKeeps(published, d, steps[|steps| - 1].peer);
      }
    }
  }

  /** At-most-once publishing, exactly. Over any number of publish runs with any failures, and any intakes and merges
      between them, an id gets at most one issue if and only if none lands for it after one whose answer was lost; it
      never gets one when it was on record to begin with; and the record holds exactly the ids it started with and
      those whose issue was acknowledged. */
  lemma {:induction false} AtMostOnce(rm: Roadmap, published: map<string, Issue>, steps: seq<Step>, id: string)
    ensures var d := Run(Doc(rm, published, []), steps);
            && (Single(d.landed, id) <==> !LandsAfterLost(d.landed, id))
            && (id in published ==> !Landed(d.landed, id))
            && (id in d.published <==> id in published || Landing(id, true) in d.landed)
  {
    RunKeeps(rm, published, steps);
    var landed := Run(Doc(rm, published, []), steps).landed;
    if !Single(landed, id) {
      var i, j :| 0 <= i < j < |landed| && landed[i].id == landed[j].id == id;
      assert landed[i] == Landing(id, false);
    }
  }

  predicate Landed(landed: seq<Landing>, id: string) {
    exists i :: 0 <= i < |landed| && landed[i].id == id
  }

  /** Only the `k`-th feature has its trimmed id. */
  predicate OnlyOne(features: seq<Feature>, k: nat)
    requires k < |features|
  {
    forall j :: 0 <= j < |features| && j != k ==> Trim(features[j].id) != Trim(features[k].id)
  }

  lemma {:induction false} PublishOther(r: Progress, f: Feature, answer: Answer, id: string)
    requires Trim(f.id) != id
    ensures var r' := PublishOne(r, f, answer);
            && (id in r'.already <==> id in r.already)
            && (Landed(r'.landed, id) <==> Landed(r.landed, id))
            && (Single(r'.landed, id) <==> Single(r.landed, id))
  {
    var r' := PublishOne(r, f, answer);
    assert r.landed <= r'.landed;
    assert forall i :: |r.landed| <= i < |r'.landed| ==> r'.landed[i].id != id;
    if Landed(r.landed, id) {
      var i :| 0 <= i < |r.landed| && r.landed[i].id == id;
      assert r'.landed[i].id == id;
    }
    if !Single(r.landed, id) {
      var i, j :| 0 <= i < j < |r.landed| && r.landed[i].id == r.landed[j].id == id;
      assert r'.landed[i].id == r'.landed[j].id == id;
    }
  }

  lemma {:induction false} NoneLands(already: map<string, Issue>, features: seq<Feature>, peer: Peer, id: string)
    requires forall j :: 0 <= j < |features| ==> Trim(features[j].id) != id
    ensures var r := PublishAll(already, features, peer); !Landed(r.landed, id) && (id in r.already <==> id in already)
  {
    if features == [] {
    } else {
      var n := |features| - 1;
      NoneLands(already, features[..n], peer, id);
      PublishOther(PublishAll(already, features[..n], peer), features[n], peer(n), id);
    }
  }

  /** An issue for the feature lands exactly if its id is not on record and the peer does not refuse. */
  lemma {:induction false} LandsIff(already: map<string, Issue>, features: seq<Feature>, peer: Peer, k: nat)
    requires k < |features| && Publishable(features[k]) && OnlyOne(features, k)
    ensures var r, id := PublishAll(already, features, peer), Trim(features[k].id);
            Single(r.landed, id) && (Landed(r.landed, id) <==> id !in already && !peer(k).Refusal?)
  {
    var n, id := |features| - 1, Trim(features[k].id);
    var r := PublishAll(already, features[..n], peer);
    if k < n {
      LandsIff(already, features[..n], peer, k);
      PublishOther(r, features[n], peer(n), id);
    } else {
      NoneLands(already, features[..n], peer, id);
      var landed := PublishOne(r, features[n], peer(n)).landed;
      if id !in already && !peer(k).Refusal? {
        assert landed[|r.landed|].id == id;
      }
    }
  }

  lemma {:induction false} SingleAppend(a: seq<Landing>, b: seq<Landing>, id: string)
    requires Single(a, id) && Single(b, id)
    ensures Single(a + b, id) <==> !(Landed(a, id) && Landed(b, id))
  {
    if Landed(a, id) && Landed(b, id) {
      var i :| 0 <= i < |a| && a[i].id == id;
      var j :| 0 <= j < |b| && b[j].id == id;
      assert (a + b)[i].id == (a + b)[|a| + j].id == id;
    }
  }

  /** When a further run gives an id its second issue: exactly if the id is in doubt, that is, an issue landed for it
      and it is not on record, and the peer does not refuse to create another one. */
  lemma {:induction false} SecondIssueIff(d: Doc, peer: Peer, k: nat)
    requires !Refused(d.rm) && k < |Sort(d.rm.features, FeatureLe)|
    requires Publishable(Sort(d.rm.features, FeatureLe)[k]) && OnlyOne(Sort(d.rm.features, FeatureLe), k)
    requires Single(d.landed, Trim(Sort(d.rm.features, FeatureLe)[k].id))
    ensures var id := Trim(Sort(d.rm.features, FeatureLe)[k].id);
            !Single(Publish(d, peer).landed, id) <==>
            Landed(d.landed, id) && id !in d.published && !peer(k).Refusal?
  {
    var sorted := Sort(d.rm.features, FeatureLe);
    var id, r := Trim(sorted[k].id), PublishAll(d.published, sorted, peer);
    LandsIff(d.published, sorted, peer, k);
    SingleAppend(d.landed, r.landed, id);
  }

  predicate AllAcknowledged(landed: seq<Landing>) {
    forall i :: 0 <= i < |landed| ==> landed[i].acknowledged
  }

  lemma {:induction false} NoLossOne(already: map<string, Issue>, features: seq<Feature>, peer: Peer)
    requires NeverLoses(peer)
    ensures AllAcknowledged(PublishAll(already, features, peer).landed)
  {
    if features == [] {
    } else {
      NoLossOne(already, features[..|features| - 1], peer);
    }
  }

  lemma {:induction false} NothingLostFront(steps: seq<Step>, m: nat)
    requires NothingLost(steps) && m <= |steps|
    ensures NothingLost(steps[..m])
  {}

  lemma {:induction false} NoLossRun(rm: Roadmap, published: map<string, Issue>, steps: seq<Step>)
    requires NothingLost(steps)
    ensures AllAcknowledged(Run(Doc(rm, published, []), steps).landed)
  {
    if steps == [] {
    } else {
      var d := Run(Doc(rm, published, []), steps[..|steps| - 1]);
      NothingLostFront(steps, |steps| - 1);
      NoLossRun(rm, published, steps[..|steps| - 1]);
      if steps[|steps| - 1].PublishRun? {
        NoLossOne(d.published, Sort(d.rm.features, FeatureLe), steps[|steps| - 1].peer);
      }
    }
  }

  /** Where no answer is lost, whatever else fails, every id gets at most one issue, and the record holds exactly the
      ids it started with and those that got one. */
  lemma {:induction false} AtMostOnceWithoutLoss(rm: Roadmap, published: map<string, Issue>, steps: seq<Step>,
                                                 id: string)
    requires NothingLost(steps)
    ensures var d := Run(Doc(rm, published, []), steps);
            && Single(d.landed, id)
            && (id in d.published <==> id in published || Landed(d.landed, id))
  {
    NoLossRun(rm, published, steps);
    AtMostOnce(rm, published, steps, id);
    var d := Run(Doc(rm, published, []), steps);
    if i :| 0 <= i < |d.landed| && d.landed[i].id == id {
      assert d.landed[i] == Landing(id, true);
    }
  }

  /** A lost answer does give an id two issues: for any publishable feature of a valid roadmap, one run whose answer is
      lost and one that is answered. */
  lemma {:induction false} LostThenCreated(rm: Roadmap, f: Feature, number: int, url: string)
    requires rm.features == [f] && Valid(rm) && Publishable(f)
    ensures var steps := [PublishRun(_ => Lost), PublishRun(_ => Created(number, url))];
            Run(Doc(rm, map[], []), steps).landed == [Landing(Trim(f.id), false), Landing(Trim(f.id), true)]
  {
    var lose: Peer, answer: Peer := _ => Lost, _ => Created(number, url);
    var d0 := Doc(rm, map[], []);
    var d1 := d0.(landed := [Landing(Trim(f.id), false)]);
    assert [f][..0] == [];
    assert Sort([f], FeatureLe) == [f];
    assert PublishAll(map[], [], lose) == PublishAll(map[], [], answer) == Progress(map[], [], 0, 0, 0);
    assert Publish(d0, lose) == d1;
    var steps := [PublishRun(lose), PublishRun(answer)];
    assert steps[..1] == [PublishRun(lose)] && [PublishRun(lose)][..0] == [];
    assert Run(d0, []) == d0;
    assert Run(d0, [PublishRun(lose)]) == d1;
    assert Publish(d1, answer).landed == [Landing(Trim(f.id), false), Landing(Trim(f.id), true)];
  }
}
