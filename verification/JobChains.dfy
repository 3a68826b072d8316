/** Who a job runs as and which model it may be pinned to, as jobs create further jobs. */
module JobChains {
  import opened Options
  import opened Text

  datatype Override = Override(provider: string, model: string)

  /** What a job resolved, under the agent key it was resolved for. */
  datatype Pin = Pin(provider: string, model: string, source: string, scope: string, agentKey: string)

  const NO_PIN := Pin("", "", "", "", "")

  datatype Job = Job(runId: string, projectId: string, specId: string, action: string, runnerImage: string,
                     organization: string, actor: string, agentKey: string, override: Option<Override>, pin: Pin)

  datatype Origin = Origin(organization: string, actor: string, override: Option<Override>, pin: Pin)

  /** OAM's answer: the part of it that is kept on the job. */
  datatype Binding = Binding(provider: string, model: string, source: string, scope: string)

  function AgentKeyForAction(action: string): string {
    var a := Key(action);
    if a == "run-planning" || a == "run-followup-planning" then "planning"
    else if a == "run-implementation" then "coding"
    else if a == "run-ideation" then "ideation"
    else if a == "run-roadmap-discovery" then "roadmap_discovery"
    else if a == "run-roadmap-features" then "roadmap_features"
    else if a == "run-roadmap-competitor" then "roadmap_competitor"
    else ""
  }

  lemma {:induction false} AgentKeysTrimmed(action: string)
    ensures Trim(AgentKeyForAction(action)) == AgentKeyForAction(action)
  {
    hide Key;
    hide Trim;
    TrimSpec(AgentKeyForAction(action));
  }

  const AI_ACTIONS: seq<(string, string)> :=
    [("run-planning", "planning"), ("run-followup-planning", "planning"), ("run-implementation", "coding"),
     ("run-ideation", "ideation"), ("run-roadmap-discovery", "roadmap_discovery"),
     ("run-roadmap-features", "roadmap_features"), ("run-roadmap-competitor", "roadmap_competitor")]

  lemma {:induction false} ActionsDistinct()
    ensures forall i, j :: 0 <= i < j < |AI_ACTIONS| ==> AI_ACTIONS[i].0 != AI_ACTIONS[j].0
    ensures forall i :: 0 <= i < |AI_ACTIONS| ==> AI_ACTIONS[i].1 != ""
  {
    assert |"run-planning"| == 12 && |"run-followup-planning"| == 21 && |"run-implementation"| == 18
           && |"run-ideation"| == 12 && |"run-roadmap-discovery"| == 21 && |"run-roadmap-features"| == 20
           && |"run-roadmap-competitor"| == 22;
    assert "run-planning"[4] == 'p' && "run-ideation"[4] == 'i';
    assert "run-followup-planning"[4] == 'f' && "run-roadmap-discovery"[4] == 'r';
  }

  /** The actions with an AI phase, in any letter case and with any blanks around them, have the agent key of the table,
      and no other action has one. */
  lemma {:induction false} AgentKeyTable(action: string, key: string)
    ensures key != "" ==>
              (AgentKeyForAction(action) == key <==>
               exists i :: 0 <= i < |AI_ACTIONS| && AI_ACTIONS[i] == (Lower(Trim(action)), key))
    ensures AgentKeyForAction(action) == "" <==>
              forall i :: 0 <= i < |AI_ACTIONS| ==> AI_ACTIONS[i].0 != Lower(Trim(action))
  {
    hide Trim;
    hide Lower;
    ActionsDistinct();
    var a, found := Key(action), AgentKeyForAction(action);
    if a == AI_ACTIONS[0].0 {
      assert AI_ACTIONS[0] == (a, found);
    } else if a == AI_ACTIONS[1].0 {
      assert AI_ACTIONS[1] == (a, found);
    } else if a == AI_ACTIONS[2].0 {
      assert AI_ACTIONS[2] == (a, found);
    } else if a == AI_ACTIONS[3].0 {
      assert AI_ACTIONS[3] == (a, found);
    } else if a == AI_ACTIONS[4].0 {
      assert AI_ACTIONS[4] == (a, found);
    } else if a == AI_ACTIONS[5].0 {
      assert AI_ACTIONS[5] == (a, found);
    } else if a == AI_ACTIONS[6].0 {
      assert AI_ACTIONS[6] == (a, found);
    }
  }

  /** Review jobs are no longer this service's. */
  predicate Unsupported(action: string) {
    Key(action) == "run-review" || Key(action) == "run-qa-fix"
  }

  function OriginFrom(j: Job): Origin {
    Origin(j.organization, j.actor, j.override, j.pin)
  }

  predicate PinnedFor(o: Origin, agentKey: string) {
    Trim(o.pin.provider) != "" && Trim(o.pin.model) != "" && Trim(o.pin.agentKey) == Trim(agentKey) && agentKey != ""
  }

  function NewJob(runId: string, projectId: string, action: string, specId: string, image: string,
                  o: Origin): Option<Job> {
    if Unsupported(action) then None
    else
      var key := AgentKeyForAction(action);
      Some(Job(runId, projectId, specId, action, image, o.organization, o.actor, key, o.override,
               if PinnedFor(o, key) then o.pin else NO_PIN))
  }

  function StepJob(parent: Job, action: string): Job {
    parent.(action := action, agentKey := AgentKeyForAction(action), pin := NO_PIN)
  }

  /** The agent key a job resolves under; blank for a job without an AI phase. */
  function ResolveKey(j: Job): string {
    if Trim(j.agentKey) != "" then Trim(j.agentKey) else AgentKeyForAction(j.action)
  }

  predicate PinInForce(j: Job) {
    j.pin.agentKey == ResolveKey(j) && Trim(j.pin.model) != ""
  }

  predicate Blank(o: Override) {
    Trim(o.provider) == "" && Trim(o.model) == ""
  }

  /** The override that goes out when the job is resolved. A job without an AI phase resolves nothing, and a blank
      override is not sent. */
  function Sent(j: Job): Option<Override> {
    var chosen := if PinInForce(j) then Some(Override(j.pin.provider, j.pin.model)) else j.override;
    if ResolveKey(j) != "" && chosen.Some? && !Blank(chosen.value) then chosen else None
  }

  function Resolved(j: Job, b: Binding, agentKey: string): Job {
    j.(pin := Pin(b.provider, b.model, b.source, b.scope, agentKey))
  }

  class JobStore {
    var runs: map<string, Job>

    constructor ()
      ensures runs == map[]
    {
      runs := map[];
    }

    method CreateJobWithOrigin(runId: string, projectId: string, action: string, specId: string, image: string,
                               o: Origin)
      returns (created: Option<Job>)
      modifies this
      ensures created == NewJob(runId, projectId, action, specId, image, o)
      ensures runs == if created.Some? then old(runs)[runId := created.value] else old(runs)
    {
      if Unsupported(action) {
        return None;
      }
      var key := AgentKeyForAction(action);
      var j := Job(runId, projectId, specId, action, image, o.organization, o.actor, key, o.override, NO_PIN);
      if PinnedFor(o, key) {
        j := j.(pin := o.pin);
      }
      runs := runs[runId := j];
      return Some(j);
    }

    /** Records what was resolved on the stored job too, of which it changes nothing else: a pipeline step shares
        its parent's run id but not its action. `fromOAM` says that there was anything to resolve. */
    method RecordJobResolution(j: Job, b: Binding, fromOAM: bool, agentKey: string) returns (r: Job)
      modifies this
      ensures !fromOAM ==> r == j && runs == old(runs)
      ensures fromOAM ==> r == Resolved(j, b, agentKey)
      ensures fromOAM ==>
                var persisted := if j.runId in old(runs) then old(runs)[j.runId] else j;
                runs == old(runs)[j.runId := persisted.(pin := r.pin)]
    {
      if !fromOAM {
        return j;
      }
      r := j.(pin := Pin(b.provider, b.model, b.source, b.scope, agentKey));
      var persisted := if j.runId in runs then runs[j.runId] else r;
      runs := runs[j.runId := persisted.(pin := r.pin)];
    }
  }

  /** A new job carries its parent's pin exactly if that is complete and belongs to the new job's own agent key,
      and otherwise none at all; who it runs as is always the parent's. */
  lemma {:induction false} PinCarriedIff(parent: Job, runId: string, projectId: string, action: string,
      specId: string, image: string)
    requires Trim(parent.pin.agentKey) == parent.pin.agentKey && !Unsupported(action)
    ensures var j := NewJob(runId, projectId, action, specId, image, OriginFrom(parent)).value;
            && j.organization == parent.organization && j.actor == parent.actor
            && (j.pin == NO_PIN || (j.pin == parent.pin && j.pin.agentKey == ResolveKey(j) != ""))
            && (j.pin == parent.pin && j.pin != NO_PIN <==>
                Trim(parent.pin.provider) != "" && Trim(parent.pin.model) != ""
                && parent.pin.agentKey == AgentKeyForAction(action) != "")
  {
    AgentKeysTrimmed(action);
    TrimSpec("");
  }

  /** A created job by its fields: only the two review actions are refused; all else is taken over, the agent key is
      the action's, and the pin is kept where it is complete and of that very key, and otherwise left blank. */
  lemma {:induction false} NewJobFields(runId: string, projectId: string, action: string, specId: string,
                                        image: string, o: Origin)
    ensures var created, a := NewJob(runId, projectId, action, specId, image, o), Lower(Trim(action));
            && (created.None? <==> a == "run-review" || a == "run-qa-fix")
            && (created.Some? ==>
                  var j, key := created.value, AgentKeyForAction(action);
                  && j.runId == runId && j.projectId == projectId && j.specId == specId && j.action == action
                  && j.runnerImage == image && j.organization == o.organization && j.actor == o.actor
                  && j.override == o.override && j.agentKey == key
                  && j.pin == if key != "" && Trim(o.pin.agentKey) == key
                                 && Trim(o.pin.provider) != "" && Trim(o.pin.model) != ""
                              then o.pin else Pin("", "", "", "", ""))
  {
    AgentKeysTrimmed(action);
    hide AgentKeyForAction;
    hide Trim;
    hide Lower;
  }

  /** What goes out when a job is resolved, by its fields. Its key is its own, blanks around it aside, or else its
      action's; without one nothing goes out. A pin of that key with a model takes precedence over the override, and an
      override without provider and model is not sent. */
  lemma {:induction false} SentByFields(j: Job)
    ensures var key := if Trim(j.agentKey) != "" then Trim(j.agentKey) else AgentKeyForAction(j.action);
            && (key == "" ==> Sent(j) == None)
            && (key != "" && j.pin.agentKey == key && Trim(j.pin.model) != "" ==>
                  Sent(j) == Some(Override(j.pin.provider, j.pin.model)))
            && (key != "" && (j.pin.agentKey != key || Trim(j.pin.model) == "") ==>
                  Sent(j) == match j.override
                             case None => None
                             case Some(o) => if Trim(o.provider) != "" || Trim(o.model) != "" then Some(o) else None)
  {
    hide AgentKeyForAction;
    hide Trim;
  }

  /** A resolution is kept as the pin, with its source and scope and the key that it was made for; all else stays. */
  lemma {:induction false} ResolvedFields(j: Job, b: Binding, agentKey: string)
    ensures var r := Resolved(j, b, agentKey);
            && r.pin.provider == b.provider && r.pin.model == b.model && r.pin.source == b.source
            && r.pin.scope == b.scope && r.pin.agentKey == agentKey && r == j.(pin := r.pin)
  {}

  // ---- the override is inherited ----

  /** What is said of an override, that it is for its own job only, fails exactly so: of a parent that has one, a
      created job sends it on if and only if it has an AI phase and no pin in force of another model; and it has a pin
      in force exactly if the parent's is complete and of the created job's own agent key. */
  lemma {:induction false} OverrideSentOnIff(parent: Job, runId: string, action: string, image: string, o: Override)
    requires Trim(parent.pin.agentKey) == parent.pin.agentKey && !Unsupported(action)
    requires parent.override == Some(o) && !Blank(o)
    ensures var j := NewJob(runId, parent.projectId, action, parent.specId, image, OriginFrom(parent)).value;
            && (PinInForce(j) <==>
                Trim(parent.pin.provider) != "" && Trim(parent.pin.model) != ""
                && parent.pin.agentKey == AgentKeyForAction(action) != "")
            && (Sent(j) == parent.override <==>
                AgentKeyForAction(action) != ""
                && (!PinInForce(j) || o == Override(parent.pin.provider, parent.pin.model)))
  {
    AgentKeysTrimmed(action);
    TrimSpec("");
  }

  lemma {:induction false} KeyFixed(s: string)
    requires Trimmed(s) && Lowered(s)
    ensures Key(s) == s
  {
    TrimSpec(s);
    LowerSpec(s);
  }

  lemma {:induction false} CodingKey()
    ensures AgentKeyForAction("run-implementation") == "coding" && !Unsupported("run-implementation")
  {
    KeyFixed("run-implementation");
    hide Key;
    assert |"run-implementation"| == 18 && |"run-planning"| == 12 && |"run-followup-planning"| == 21;
    assert |"run-review"| == 10 && |"run-qa-fix"| == 10;
  }

  /** Across agent phases it is always sent on: whatever a planning job resolved to, the implementation job it creates
      asks for the planning job's override. */
  lemma {:induction false} OverrideCrossesPhases(parent: Job, runId: string, image: string, o: Override)
    requires parent.pin == NO_PIN || parent.pin.agentKey == "planning"
    requires parent.override == Some(o) && !Blank(o)
    ensures var j := NewJob(runId, parent.projectId, "run-implementation", parent.specId, image, OriginFrom(parent));
            j.Some? && ResolveKey(j.value) == "coding" && Sent(j.value) == Some(o)
  {
    CodingKey();
    TrimSpec("coding");
    TrimSpec("planning");
    TrimSpec("");
    hide AgentKeyForAction;
    hide Unsupported;
    hide Sent;
    hide PinInForce;
    hide TrimLeft;
    hide TrimRight;
    OverrideSentOnIff(parent, runId, "run-implementation", image, o);
  }

  // ---- runs ----

  /** A resolution that took place: under this agent key, this model. */
  datatype Resolution = Resolution(agentKey: string, provider: string, model: string)

  /** All copies of job records in play, stored or held in memory, current or outdated, and all resolutions so far. */
  datatype State = State(copies: seq<Job>, resolutions: set<Resolution>)

  /** What can happen to copy `at`: it is resolved, its pin is recorded on another copy of the same run, it runs a
      step of its own, or it creates a job. */
  datatype Event =
    | Resolve(at: nat, answer: Option<Binding>)
    | Record(at: nat, onto: nat)
    | Step(at: nat, stepAction: string)
    | Create(at: nat, runId: string, newAction: string)

  function Added(s: State, j: Job): State {
    s.(copies := s.copies + [j])
  }

  function Exec(s: State, e: Event): State {
    if e.at >= |s.copies| then s
    else
      var j := s.copies[e.at];
      match e
      case Resolve(_, answer) =>
        if ResolveKey(j) == "" || answer.None? then s
        else
          Added(s, Resolved(j, answer.value, ResolveKey(j)))
          .(resolutions := s.resolutions + {Resolution(ResolveKey(j), answer.value.provider, answer.value.model)})
      case Record(_, onto) =>
        if onto < |s.copies| && s.copies[onto].runId == j.runId then Added(s, s.copies[onto].(pin := j.pin)) else s
      case Step(_, action) => Added(s, StepJob(j, action))
      case Create(_, runId, action) =>
        match NewJob(runId, j.projectId, action, j.specId, j.runnerImage, OriginFrom(j))
        case None => s
        case Some(created) => Added(s, created)
  }

  function Run(s: State, events: seq<Event>): State {
    if events == [] then s else Exec(Run(s, events[..|events| - 1]), events[|events| - 1])
  }

  predicate PinKnown(j: Job, resolutions: set<Resolution>) {
    j.pin == NO_PIN || (j.pin.agentKey != "" && Trim(j.pin.agentKey) == j.pin.agentKey
                        && Resolution(j.pin.agentKey, j.pin.provider, j.pin.model) in resolutions)
  }

  /** The job runs as the root does, under its own action's key, with nothing pinned that was not resolved. */
  predicate InChain(j: Job, root: Job, resolutions: set<Resolution>) {
    j.organization == root.organization && j.actor == root.actor && j.override == root.override
    && j.agentKey == AgentKeyForAction(j.action) && PinKnown(j, resolutions)
  }

  predicate Sound(s: State, root: Job) {
    forall k :: 0 <= k < |s.copies| ==> InChain(s.copies[k], root, s.resolutions)
  }

  lemma {:induction false} InChainGrows(j: Job, root: Job, resolutions: set<Resolution>, more: set<Resolution>)
    requires InChain(j, root, resolutions) && resolutions <= more
    ensures InChain(j, root, more)
  {}

  lemma {:induction false} ExecSound(s: State, root: Job, e: Event)
    requires Sound(s, root)
    ensures Sound(Exec(s, e), root)
  {
    if e.at < |s.copies| {
      var j := s.copies[e.at];
      AgentKeysTrimmed(j.action);
      match e
      case Resolve(_, answer) =>
        forall k | 0 <= k < |s.copies| ensures InChain(s.copies[k], root, Exec(s, e).resolutions) {
          InChainGrows(s.copies[k], root, s.resolutions, Exec(s, e).resolutions);
        }
      case Record(_, onto) =>
      case Step(_, action) =>
      case Create(_, runId, action) =>
    }
  }

  lemma {:induction false} RunSound(root: Job, events: seq<Event>)
    requires root.pin == NO_PIN && root.agentKey == AgentKeyForAction(root.action)
    ensures Sound(Run(State([root], {}), events), root)
  {
    if events == [] {
    } else {
      RunSound(root, events[..|events| - 1]);
      ExecSound(Run(State([root], {}), events[..|events| - 1]), root, events[|events| - 1]);
    }
  }

  /** Chain identity and pin isolation. After any run from a fresh root job, every copy of every job runs as the
      root's organization and user, and what it sends for resolution is the root's own choice of model or a model
      that was resolved before under the very agent key it is now sent for. */
  lemma {:induction false} ChainIsolation(root: Job, events: seq<Event>, k: nat)
    requires root.pin == NO_PIN && root.agentKey == AgentKeyForAction(root.action)
    requires k < |Run(State([root], {}), events).copies|
    ensures var s := Run(State([root], {}), events);
            var j := s.copies[k];
            && j.organization == root.organization && j.actor == root.actor
            && (Sent(j).None? || Sent(j) == root.override
                || Resolution(ResolveKey(j), Sent(j).value.provider, Sent(j).value.model) in s.resolutions)
  {
    RunSound(root, events);
    var s := Run(State([root], {}), events);
    assert InChain(s.copies[k], root, s.resolutions);
    TrimSpec("");
  }

  /** What the resolutions are: each was made, for a job's own key, by a resolving event of the run. */
  lemma {:induction false} ResolutionsMade(root: Job, events: seq<Event>, r: Resolution) returns (n: nat)
    requires r in Run(State([root], {}), events).resolutions
    ensures n < |events| && events[n].Resolve? && events[n].answer.Some?
    ensures var before := Run(State([root], {}), events[..n]);
            && events[n].at < |before.copies| && r.agentKey == ResolveKey(before.copies[events[n].at]) != ""
            && r.provider == events[n].answer.value.provider && r.model == events[n].answer.value.model
  {
    var last := |events| - 1;
    if r in Run(State([root], {}), events[..last]).resolutions {
      n := ResolutionsMade(root, events[..last], r);
      assert events[..last][..n] == events[..n];
    } else {
      n := last;
    }
  }

  // ---- one model for a whole chain ----

  /** The job that a job creates for its own action once it is resolved and recorded. */
  function NextJob(j: Job, answer: Binding, runId: string): Job
    requires !Unsupported(j.action)
  {
    var done := Resolved(j, answer, ResolveKey(j));
    NewJob(runId, done.projectId, j.action, done.specId, done.runnerImage, OriginFrom(done)).value
  }

  /** The `i`-th job of a chain that repeats one action. */
  function ChainJob(root: Job, answers: seq<Binding>, runIds: seq<string>, i: nat): Job
    requires i <= |answers| == |runIds| && !Unsupported(root.action)
    ensures ChainJob(root, answers, runIds, i).action == root.action
    decreases i
  {
    if i == 0 then root else NextJob(ChainJob(root, answers, runIds, i - 1), answers[i - 1], runIds[i - 1])
  }

  /** OAM answers an override with the model that was asked for. */
  predicate Honoured(sent: Option<Override>, answer: Binding) {
    sent.Some? ==> answer.provider == sent.value.provider && answer.model == sent.value.model
  }

  lemma {:induction false} NextJobSends(j: Job, answer: Binding, runId: string)
    requires !Unsupported(j.action) && ResolveKey(j) == AgentKeyForAction(j.action) != ""
    requires Trim(answer.provider) != "" && Trim(answer.model) != ""
    ensures ResolveKey(NextJob(j, answer, runId)) == ResolveKey(j)
    ensures Sent(NextJob(j, answer, runId)) == Some(Override(answer.provider, answer.model))
  {
    AgentKeysTrimmed(j.action);
    hide AgentKeyForAction;
    hide Unsupported;
    hide TrimLeft;
    hide TrimRight;
  }

  lemma {:induction false} ChainNext(root: Job, answers: seq<Binding>, runIds: seq<string>, i: nat)
    requires 0 < i <= |answers| == |runIds| && !Unsupported(root.action)
    ensures var parent := ChainJob(root, answers, runIds, i - 1);
            parent.action == root.action
            && ChainJob(root, answers, runIds, i) == NextJob(parent, answers[i - 1], runIds[i - 1])
  {
    hide Unsupported;
    hide NextJob;
  }

  lemma {:induction false} HonouredAnswer(o: Override, answer: Binding)
    requires Honoured(Some(o), answer)
    ensures answer.provider == o.provider && answer.model == o.model
  {}

  /** Once the first job of the chain has a model with a provider, every further job of the chain asks for exactly
      that model, whatever OAM would choose by then. */
  lemma {:induction false} ChainKeepsModel(root: Job, answers: seq<Binding>, runIds: seq<string>, i: nat)
    requires 0 < i <= |answers| == |runIds| && !Unsupported(root.action)
    requires root.agentKey == AgentKeyForAction(root.action) != ""
    requires Trim(answers[0].provider) != "" && Trim(answers[0].model) != ""
    requires forall k :: 0 < k < i ==> Honoured(Sent(ChainJob(root, answers, runIds, k)), answers[k])
    ensures Sent(ChainJob(root, answers, runIds, i)) == Some(Override(answers[0].provider, answers[0].model))
    decreases i
  {
    hide AgentKeyForAction;
    hide Unsupported;
    hide ResolveKey;
    hide Trim;
    hide Sent;
    hide NextJob;
    hide Honoured;
    hide ChainJob;
    ChainNext(root, answers, runIds, i);
    var parent := ChainJob(root, answers, runIds, i - 1);
    ChainKeys(root, answers, runIds, i - 1);
    if i == 1 {
    } else {
      ChainKeepsModel(root, answers, runIds, i - 1);
      assert Honoured(Sent(parent), answers[i - 1]);
      HonouredAnswer(Sent(parent).value, answers[i - 1]);
    }
    NextJobSends(parent, answers[i - 1], runIds[i - 1]);
  }

  lemma {:induction false} ChainKeys(root: Job, answers: seq<Binding>, runIds: seq<string>, i: nat)
    requires i <= |answers| == |runIds| && !Unsupported(root.action)
    requires root.agentKey == AgentKeyForAction(root.action)
    ensures ResolveKey(ChainJob(root, answers, runIds, i)) == root.agentKey
  {
    AgentKeysTrimmed(root.action);
  }
}
