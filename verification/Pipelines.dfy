/** The pipeline job: plan if there is no plan, drain the open subtasks in a bounded loop, park the
    task in review. Operators may pause the task or cancel the job between any two steps. */
module Pipelines {
  import opened Plans
  import opened Columns
  import opened TaskJobs
  import opened Drains

  // ---- what happens around the pipeline ----

  datatype Event = Quiet | PauseTask | CancelJob

  /** What an operator does before each of the pipeline's checks. */
  datatype Env = Env(afterPlanning: Event, during: nat -> Event, last: Event)

  /** The task after the event; a cancel also sticks the next open subtask. */
  function Struck(t: Task, e: Event): Task {
    match e
    case Quiet => t
    case PauseTask => Pause(t)
    case CancelJob => Stick(t)
  }

  /** `pipelineCancelledOrPaused`, asked after the event. */
  predicate Blocks(t: Task, e: Event) {
    e.CancelJob? || Struck(t, e).progress.paused
  }

  // ---- the job ----

  datatype Outcome = Parked | Incomplete | Interrupted | StepRefused

  datatype Result = Result(task: Task, outcome: Outcome, steps: nat)

  /** `setPipelineProgress`. */
  function Refresh(t: Task, running: bool): Task {
    t.(progress := Recount(t.plan, running, t.progress.paused, t.progress.stuckId))
  }

  function MaxSteps(pending: nat): nat {
    if pending + 8 < 16 then 16 else if pending + 8 > 500 then 500 else pending + 8
  }

  /** The step bound: 8 more than what is pending, but at least 16 and at most 500. */
  lemma {:induction false} StepBound(pending: nat)
    ensures 16 <= MaxSteps(pending) <= 500
    ensures MaxSteps(pending) == pending + 8 || (MaxSteps(pending) == 16 && pending < 8)
            || (MaxSteps(pending) == 500 && pending > 492)
  {}

  /** An undisturbed round on a task that waits in human review without an approval ends the loop as refused. */
  lemma {:induction false} RoundRefused(t: Task, i: nat, max: nat, env: Env)
    requires i < max && env.during(i).Quiet? && !t.progress.paused && FirstOpenId(t.plan.phases) != ""
    requires t.requireReview && !t.approved && t.column == Column.HumanReview
    ensures DrainLoop(t, i, max, env) == Result(Refresh(t, true), StepRefused, i)
  {}

  /** The drain loop from its `i`-th round; outcome Parked only says that the loop ended by itself. */
  function DrainLoop(t: Task, i: nat, max: nat, env: Env): Result
    decreases max - i
  {
    if i >= max then Result(t, Parked, i)
    else
      var t1 := Struck(t, env.during(i));
      if Blocks(t, env.during(i)) then Result(t1, Interrupted, i)
      else if FirstOpenId(t1.plan.phases) == "" then Result(t1, Parked, i)
      else
        var t2 := Refresh(t1, true);
        if ImplementOutcome(t2).Refused? then Result(t2, StepRefused, i)
        else DrainLoop(Implement(t2, true), i + 1, max, env)
  }

  /** After the loop: what is left open, a last check, and the decision to park. */
  function Conclude(t: Task, steps: nat, last: Event): Result {
    if FirstOpenId(t.plan.phases) != "" then Result(Refresh(t, false), Incomplete, steps)
    else if Blocks(t, last) then Result(Struck(t, last), Interrupted, steps)
    else
      var t1 := Struck(t, last);
      var flat := Flat(t1.plan.phases);
      if |flat| == 0 || DoneCount(flat) < |flat| then Result(Refresh(t1, false), Incomplete, steps)
      else Result(Refresh(t1, false).(column := Column.Review), Parked, steps)
  }

  /** The planning stage: only a task without phases is planned. */
  function PlanStage(t: Task, source: PlanSource): Task {
    if t.plan.phases == [] then PlanTask(Refresh(t, true), source, false) else t
  }

  function AutoApprove(t: Task): Task {
    if AwaitsApproval(t) then Approve(t) else t
  }

  function CodingStage(t: Task, env: Env): Result {
    var r := DrainLoop(t, 0, MaxSteps(OpenCount(Flat(t.plan.phases))), env);
    if r.outcome.Parked? then Conclude(r.task, r.steps, env.last) else r
  }

  function Stages(t: Task, source: PlanSource, env: Env): Result {
    var planned := PlanStage(t, source);
    if t.plan.phases == [] && Blocks(planned, env.afterPlanning) then
      Result(Struck(planned, env.afterPlanning), Interrupted, 0)
    else
      var ready := if t.plan.phases == [] then Struck(planned, env.afterPlanning) else planned;
      CodingStage(AutoApprove(ready), env)
  }

  /** The deferred tidying up: the progress record never stays running. */
  function Stopped(t: Task): Task {
    t.(progress := t.progress.(running := false))
  }

  function Pipeline(t: Task, source: PlanSource, env: Env): Result {
    var r := Stages(Refresh(t, true), source, env);
    r.(task := Stopped(r.task))
  }

  // ---- the job as it runs, on the stored records ----

  method SetPipelineProgress(f: TaskFile, running: bool)
    modifies f
    ensures f.Value() == Refresh(old(f.Value()), running)
  {
    var total, done := f.PutRecount(running, f.progress.paused, f.progress.stuckId);
  }

  /** An operator's event strikes, and the check that follows it looks. */
  method CancelledOrPaused(f: TaskFile, e: Event) returns (blocked: bool)
    modifies f
    ensures f.Value() == Struck(old(f.Value()), e)
    ensures blocked == Blocks(old(f.Value()), e)
  {
    match e {
      case Quiet =>
      case PauseTask => f.RunPause();
      case CancelJob => f.MarkJobCancelledStuck();
    }
    blocked := e.CancelJob? || f.progress.paused;
  }

  method FirstPendingSubtaskID(phases: seq<Phase>) returns (id: string)
    ensures id == FirstOpenId(phases)
  {
    for i := 0 to |phases|
      invariant forall j :: 0 <= j < i ==> FirstIn(phases[j].subtasks) == |phases[j].subtasks|
    {
      for k := 0 to |phases[i].subtasks|
        invariant forall j :: 0 <= j < k ==> !Open(phases[i].subtasks[j].status)
      {
        if Open(phases[i].subtasks[k].status) {
          return phases[i].subtasks[k].id;
        }
      }
    }
    return "";
  }

  method DrainPending(f: TaskFile, maxSteps: nat, env: Env) returns (outcome: Outcome, steps: nat)
    modifies f
    ensures Result(f.Value(), outcome, steps) == DrainLoop(old(f.Value()), 0, maxSteps, env)
  {
    var i := 0;
    while i < maxSteps
      invariant i <= maxSteps
      invariant DrainLoop(f.Value(), i, maxSteps, env) == DrainLoop(old(f.Value()), 0, maxSteps, env)
    {
      var blocked := CancelledOrPaused(f, env.during(i));
      if blocked {
        return Interrupted, i;
      }
      var id := FirstPendingSubtaskID(f.plan.phases);
      if id == "" {
        return Parked, i;
      }
      SetPipelineProgress(f, true);
      var stepped := f.RunImplementation(true);
      if stepped.Refused? {
        return StepRefused, i;
      }
      i := i + 1;
    }
    return Parked, i;
  }

  method RunCodingStage(f: TaskFile, env: Env) returns (outcome: Outcome, steps: nat)
    modifies f
    ensures Result(f.Value(), outcome, steps) == CodingStage(old(f.Value()), env)
  {
    var totalPending := CountPendingSubtasks(f.plan.phases);
    var maxSteps := totalPending + 8;
    if maxSteps < 16 {
      maxSteps := 16;
    }
    if maxSteps > 500 {
      maxSteps := 500;
    }
    outcome, steps := DrainPending(f, maxSteps, env);
    if !outcome.Parked? {
      return;
    }
    var pending := FirstPendingSubtaskID(f.plan.phases);
    if pending != "" {
      SetPipelineProgress(f, false);
      return Incomplete, steps;
    }
    var blocked := CancelledOrPaused(f, env.last);
    if blocked {
      return Interrupted, steps;
    }
    var total, done := CountPlanSubtasks(f.plan.phases);
    SetPipelineProgress(f, false);
    if total == 0 || done < total {
      return Incomplete, steps;
    }
    f.column := Column.Review;
    return Parked, steps;
  }

  method RunPipeline(f: TaskFile, source: PlanSource, env: Env) returns (outcome: Outcome, steps: nat)
    modifies f
    ensures Result(f.Value(), outcome, steps) == Pipeline(old(f.Value()), source, env)
  {
    SetPipelineProgress(f, true);
    var interrupted := false;
    if |f.plan.phases| == 0 {
      SetPipelineProgress(f, true);
      f.RunPlanning(source, false);
      interrupted := CancelledOrPaused(f, env.afterPlanning);
    }
    if interrupted {
      outcome, steps := Interrupted, 0;
    } else {
      if f.requireReview && !f.approved && f.column == Column.HumanReview {
        var ok := f.ApproveForCoding();
      }
      outcome, steps := RunCodingStage(f, env);
    }
    f.progress := f.progress.(running := false);
  }

  // ---- what the drain does ----

  /** Where a pipeline ends it no longer runs, and before its coding stage it approves a task that waits in human review
      for want of an approval, and no other. */
  lemma {:induction false} PipelineStops(t: Task, source: PlanSource, env: Env)
    ensures !Pipeline(t, source, env).task.progress.running
    ensures AutoApprove(t) ==
            if t.requireReview && !t.approved && t.column == Column.HumanReview
            then t.(column := Column.Queue, approved := true) else t
  {
    hide Stages;
  }

  /** Where the drain stands after `i` uninterrupted rounds on a task whose items were `flat`. */
  ghost predicate After(t: Task, flat: seq<Item>, i: nat) {
    && i <= Drainable(flat)
    && Flat(t.plan.phases) == Drained(flat, i)
    && !t.progress.paused
    && !AwaitsApproval(t)
    && (i > 0 ==>
          t.column == if DoneCount(flat) + i == |flat| then Column.Review else Column.InProgress)
  }

  /** One undisturbed round completes the next open subtask of the document. */
  lemma {:induction false} RoundAdvances(t: Task, flat: seq<Item>, i: nat)
    requires After(t, flat, i) && i < Drainable(flat)
    ensures FirstOpenId(t.plan.phases) != ""
    ensures ImplementOutcome(Refresh(t, true)).Advanced?
    ensures After(Implement(Refresh(t, true), true), flat, i + 1)
    ensures SameShape(t.plan.phases, Implement(Refresh(t, true), true).plan.phases)
  {
    StepDrains(Refresh(t, true), flat, i, true);
  }

  /** When no more completions are allowed, the first open id reads as blank. */
  lemma {:induction false} DrainEnds(t: Task, flat: seq<Item>)
    requires After(t, flat, Drainable(flat))
    ensures FirstOpenId(t.plan.phases) == ""
  {
    StepsEnd(t.plan.phases, flat);
  }

  lemma {:induction false} ShapeTransitive(a: seq<Phase>, b: seq<Phase>, c: seq<Phase>)
    requires SameShape(a, b) && SameShape(b, c)
    ensures SameShape(a, c)
  {}

  function Least(a: nat, b: nat): nat {
    if a < b then a else b
  }

  ghost predicate QuietBefore(env: Env, k: nat) {
    forall i :: 0 <= i < k ==> env.during(i).Quiet?
  }

  /** One round of an undisturbed loop. */
  lemma {:induction false} LoopRound(t: Task, flat: seq<Item>, i: nat, max: nat, env: Env) returns (next: Task)
    requires After(t, flat, i) && i < Drainable(flat) && i < max && env.during(i).Quiet?
    ensures After(next, flat, i + 1) && SameShape(t.plan.phases, next.plan.phases)
    ensures DrainLoop(t, i, max, env) == DrainLoop(next, i + 1, max, env)
  {
    RoundAdvances(t, flat, i);
    next := Implement(Refresh(t, true), true);
  }

  /** The rounds an undisturbed loop asks in are quiet: those within the bound, up to the one that finds nothing
      left. */
  ghost predicate QuietRounds(flat: seq<Item>, max: nat, env: Env) {
    forall i :: 0 <= i < max && i <= Drainable(flat) ==> env.during(i).Quiet?
  }

  lemma {:induction false} LoopStops(t: Task, flat: seq<Item>, i: nat, max: nat, env: Env)
    requires i == max || (i < max && After(t, flat, i) && i == Drainable(flat) && env.during(i).Quiet?)
    ensures DrainLoop(t, i, max, env) == Result(t, Parked, i)
  {
    if i < max {
      DrainEnds(t, flat);
    }
  }

  /** The undisturbed rounds up to the `k`-th. */
  lemma {:induction false} LoopRounds(t: Task, flat: seq<Item>, i: nat, k: nat, max: nat, env: Env) returns (end: Task)
    requires After(t, flat, i) && i <= k <= max && k <= Drainable(flat) && QuietBefore(env, k)
    ensures After(end, flat, k) && SameShape(t.plan.phases, end.plan.phases)
    ensures DrainLoop(t, i, max, env) == DrainLoop(end, k, max, env)
    decreases k - i
  {
    hide DrainLoop;
    if i < k {
      var next := LoopRound(t, flat, i, max, env);
      end := LoopRounds(next, flat, i + 1, k, max, env);
      ShapeTransitive(t.plan.phases, next.plan.phases, end.plan.phases);
    } else {
      end := t;
    }
  }

  /** An undisturbed loop ends by itself, after as many completions as its bound and the plan allow. */
  lemma {:induction false} LoopEnds(t: Task, flat: seq<Item>, i: nat, max: nat, env: Env) returns (end: Task)
    requires After(t, flat, i) && i <= max
    requires QuietRounds(flat, max, env)
    ensures DrainLoop(t, i, max, env) == Result(end, Parked, Least(max, Drainable(flat)))
    ensures After(end, flat, Least(max, Drainable(flat))) && SameShape(t.plan.phases, end.plan.phases)
  {
    var k := Least(max, Drainable(flat));
    end := LoopRounds(t, flat, i, k, max, env);
    LoopStops(end, flat, k, max, env);
  }

  lemma {:induction false} LoopBlocked(t: Task, i: nat, max: nat, env: Env)
    requires i < max && !env.during(i).Quiet?
    ensures DrainLoop(t, i, max, env) == Result(Struck(t, env.during(i)), Interrupted, i)
  {
    assert Blocks(t, env.during(i));
  }

  /** Disturbed first at round `k`, it stops there: exactly the `k` first open subtasks are completed,
      and then the event struck. */
  lemma {:induction false} LoopInterrupted(t: Task, flat: seq<Item>, i: nat, max: nat, env: Env, k: nat)
      returns (before: Task)
    requires After(t, flat, i) && i <= k < max && k <= Drainable(flat)
    requires QuietBefore(env, k) && !env.during(k).Quiet?
    ensures DrainLoop(t, i, max, env) == Result(Struck(before, env.during(k)), Interrupted, k)
    ensures After(before, flat, k) && SameShape(t.plan.phases, before.plan.phases)
  {
    before := LoopRounds(t, flat, i, k, max, env);
    LoopBlocked(before, k, max, env);
  }

  // ---- the whole job ----

  /** The phases the coding stage works on. */
  function CodedPhases(t: Task, source: PlanSource): seq<Phase> {
    if t.plan.phases == [] then Planned(t.plan, source, false).phases else t.plan.phases
  }

  /** Every subtask is finished, or is open and has an id. */
  predicate Completable(flat: seq<Item>) {
    forall i :: 0 <= i < |flat| ==>
      Finished(flat[i].status) || (Open(flat[i].status) && flat[i].id != "")
  }

  lemma {:induction false} CompletableCounts(flat: seq<Item>)
    ensures Completable(flat) <==>
            Drainable(flat) == OpenCount(flat) && DoneCount(flat) + OpenCount(flat) == |flat|
  {
    DrainableBound(flat);
    CountsBounded(flat);
    if Drainable(flat) == OpenCount(flat) && DoneCount(flat) + OpenCount(flat) == |flat| {
      forall i | 0 <= i < |flat|
        ensures Finished(flat[i].status) || (Open(flat[i].status) && flat[i].id != "")
      {}
    }
  }

  /** The places where the pipeline asks whether it was paused or cancelled: after planning, before each round of the
      loop, and after the loop. */
  datatype Check = AfterPlanning | Round(k: nat) | Last

  /** Nothing happened before the coding stage; without planning, nothing is asked there. */
  predicate QuietPlanning(t: Task, env: Env) {
    t.plan.phases == [] ==> env.afterPlanning.Quiet?
  }

  /** No check that is asked finds an event. The last one is asked only when the loop leaves nothing open. */
  ghost predicate Undisturbed(t: Task, source: PlanSource, env: Env) {
    var flat := Flat(CodedPhases(t, source));
    && QuietPlanning(t, env)
    && QuietRounds(flat, MaxSteps(OpenCount(flat)), env)
    && (Drainable(flat) <= 500 ==> env.last.Quiet?)
  }

  /** The event found by a check, and how many subtasks are completed by then. */
  function EventAt(env: Env, c: Check): Event {
    match c
    case AfterPlanning => env.afterPlanning
    case Round(k) => env.during(k)
    case Last => env.last
  }

  function StepsBefore(flat: seq<Item>, c: Check): nat {
    match c
    case AfterPlanning => 0
    case Round(k) => k
    case Last => Drainable(flat)
  }

  /** The check is asked, it finds an event, and none before it did. */
  ghost predicate FirstDisturbed(t: Task, source: PlanSource, env: Env, c: Check) {
    var flat := Flat(CodedPhases(t, source));
    var max := MaxSteps(OpenCount(flat));
    !EventAt(env, c).Quiet? &&
    match c
    case AfterPlanning => t.plan.phases == []
    case Round(k) => QuietPlanning(t, env) && k < max && k <= Drainable(flat) && QuietBefore(env, k)
    case Last => QuietPlanning(t, env) && QuietRounds(flat, max, env) && Drainable(flat) <= 500
  }

  lemma {:induction false} FirstDisturbedRound(env: Env, n: nat) returns (k: nat)
    requires exists i :: 0 <= i < n && !env.during(i).Quiet?
    ensures k < n && !env.during(k).Quiet? && QuietBefore(env, k)
  {
    if exists i :: 0 <= i < n - 1 && !env.during(i).Quiet? {
      k := FirstDisturbedRound(env, n - 1);
    } else {
      k := n - 1;
    }
  }

  /** A pipeline that is not undisturbed has a first check that was disturbed. */
  lemma {:induction false} SomeCheckFirst(t: Task, source: PlanSource, env: Env) returns (c: Check)
    requires !Undisturbed(t, source, env)
    ensures FirstDisturbed(t, source, env, c)
  {
    var flat := Flat(CodedPhases(t, source));
    var max := MaxSteps(OpenCount(flat));
    if !QuietPlanning(t, env) {
      c := AfterPlanning;
    } else if !QuietRounds(flat, max, env) {
      var i :| 0 <= i < max && i <= Drainable(flat) && !env.during(i).Quiet?;
      var k := FirstDisturbedRound(env, i + 1);
      c := Round(k);
    } else {
      c := Last;
    }
  }

  /** The task as it enters the coding stage. */
  lemma {:induction false} StageStart(t: Task, source: PlanSource, env: Env) returns (ready: Task)
    requires !t.progress.paused
    requires t.plan.phases == [] ==> env.afterPlanning.Quiet?
    ensures Stages(Refresh(t, true), source, env) == CodingStage(ready, env)
    ensures ready.plan.phases == CodedPhases(t, source)
    ensures After(ready, Flat(CodedPhases(t, source)), 0)
  {
    var t0 := Refresh(t, true);
    var planned := PlanStage(t0, source);
    ready := AutoApprove(planned);
    DrainedNone(Flat(CodedPhases(t, source)));
    assert Struck(planned, Quiet) == planned;
  }

  /** The loop was cut short: something open is left, and more than 500 subtasks were. The last check is not asked. */
  lemma {:induction false} ConcludeCutShort(t: Task, flat: seq<Item>, k: nat, last: Event)
    requires After(t, flat, k) && k == MaxSteps(OpenCount(flat)) < Drainable(flat)
    ensures Conclude(t, k, last) == Result(Refresh(t, false), Incomplete, k)
    ensures OpenCount(flat) > 500 && k == 500 && t.column == Column.InProgress
  {
    RoundAdvances(t, flat, k);
    DrainableBound(flat);
    CountsBounded(flat);
  }

  lemma {:induction false} FullPercent(n: nat)
    requires n > 0
    ensures Percent(n, n) == 100
  {}

  /** The drain came to its end. */
  lemma {:induction false} ConcludeDrained(t: Task, flat: seq<Item>)
    requires After(t, flat, Drainable(flat))
    ensures var k := Drainable(flat); var r := Conclude(t, k, Quiet);
            if flat != [] && DoneCount(flat) + k == |flat| then
              r == Result(Refresh(t, false).(column := Column.Review), Parked, k)
              && r.task.progress.percent == 100
            else r == Result(Refresh(t, false), Incomplete, k)
                 && (k > 0 ==> t.column == Column.InProgress)
  {
    DrainEnds(t, flat);
    DrainableBound(flat);
    DrainedCounts(flat, Drainable(flat));
    CountsBounded(Drained(flat, Drainable(flat)));
    if flat != [] {
      FullPercent(|flat|);
    }
  }

  lemma {:induction false} WhenAllFits(flat: seq<Item>)
    ensures Least(MaxSteps(OpenCount(flat)), Drainable(flat)) == Least(500, Drainable(flat))
    ensures Drainable(flat) <= 500 ==>
              (DoneCount(flat) + Drainable(flat) == |flat| <==> OpenCount(flat) <= 500 && Completable(flat))
    ensures Drainable(flat) > 500 ==> OpenCount(flat) > 500 && MaxSteps(OpenCount(flat)) == 500
  {
    DrainableBound(flat);
    CompletableCounts(flat);
    CountsBounded(flat);
  }

  /** Pipeline drain. An undisturbed pipeline completes, in document order, as many open subtasks as
      there are before the first one without an id, but never more than 500, and changes nothing else
      of the plan. It succeeds, with the task parked in review at 100 percent, exactly when the plan is
      not empty, at most 500 subtasks were open, and each subtask was finished or open with an id;
      otherwise it reports the job incomplete, and if it completed anything the task is left in
      progress. */
  lemma {:induction false} PipelineDrains(t: Task, source: PlanSource, env: Env)
    requires !t.progress.paused && Undisturbed(t, source, env)
    ensures var phases := CodedPhases(t, source); var flat := Flat(phases); var r := Pipeline(t, source, env);
            && r.steps == Least(500, Drainable(flat))
            && Flat(r.task.plan.phases) == Drained(flat, r.steps)
            && SameShape(phases, r.task.plan.phases)
            && r.outcome in {Parked, Incomplete}
            && (r.outcome == Parked <==> flat != [] && OpenCount(flat) <= 500 && Completable(flat))
            && (r.outcome == Parked ==> r.task.column == Column.Review && r.task.progress.percent == 100)
            && (r.outcome == Incomplete && r.steps > 0 ==> r.task.column == Column.InProgress)
  {
    var flat := Flat(CodedPhases(t, source));
    var ready := StageStart(t, source, env);
    var max := MaxSteps(OpenCount(flat));
    var end := LoopEnds(ready, flat, 0, max, env);
    WhenAllFits(flat);
    if Drainable(flat) > 500 {
      ConcludeCutShort(end, flat, max, env.last);
    } else {
      ConcludeDrained(end, flat);
    }
  }

  lemma {:induction false} StruckFlat(t: Task, e: Event)
    requires !e.Quiet?
    ensures SameShape(t.plan.phases, Struck(t, e).plan.phases)
    ensures e.PauseTask? ==> Struck(t, e).plan == t.plan && Struck(t, e).progress.paused
    ensures var flat := Flat(t.plan.phases); var n := First(flat);
            e.CancelJob? ==>
              Flat(Struck(t, e).plan.phases) ==
              if n < |flat| && flat[n].id != "" then flat[n := flat[n].(status := Stuck)] else flat
  {
    hide First;
    hide MarkFirst;
    hide Flat;
    MarkFirstFlat(t.plan.phases, Stuck);
  }

  /** The drain came to its end and the last check finds an event. */
  lemma {:induction false} ConcludeDisturbed(t: Task, flat: seq<Item>, last: Event)
    requires After(t, flat, Drainable(flat)) && !last.Quiet?
    ensures Conclude(t, Drainable(flat), last) == Result(Struck(t, last), Interrupted, Drainable(flat))
  {
    DrainEnds(t, flat);
    hide Drainable;
    hide Flat;
    hide MarkFirst;
    assert Blocks(t, last);
  }

  /** What an interruption leaves of the plan after `k` completions: a pause changes no subtask further, a cancel
      sticks the next open one if it has an id. */
  ghost predicate LeftBy(flat: seq<Item>, k: nat, e: Event, after: Task) {
    && (e.PauseTask? ==> Flat(after.plan.phases) == Drained(flat, k) && after.progress.paused)
    && (e.CancelJob? ==>
          var n, done := First(Drained(flat, k)), Drained(flat, k);
          Flat(after.plan.phases) ==
          if n < |done| && done[n].id != "" then done[n := done[n].(status := Stuck)] else done)
  }

  lemma {:induction false} StruckLeaves(t: Task, flat: seq<Item>, k: nat, e: Event)
    requires !e.Quiet? && Flat(t.plan.phases) == Drained(flat, k)
    ensures LeftBy(flat, k, e, Struck(t, e)) && SameShape(t.plan.phases, Struck(t, e).plan.phases)
  {
    StruckFlat(t, e);
    hide Struck;
    hide SameShape;
    hide First;
    hide Drained;
  }

  /** Where the coding stage stands when the check finds its event. */
  lemma {:induction false} CodingInterrupted(ready: Task, flat: seq<Item>, env: Env, c: Check) returns (before: Task)
    requires After(ready, flat, 0) && flat == Flat(ready.plan.phases) && !c.AfterPlanning?
    requires !EventAt(env, c).Quiet?
    requires var max := MaxSteps(OpenCount(flat));
             match c
             case AfterPlanning => false
             case Round(k) => k < max && k <= Drainable(flat) && QuietBefore(env, k)
             case Last => QuietRounds(flat, max, env) && Drainable(flat) <= 500
    ensures Flat(before.plan.phases) == Drained(flat, StepsBefore(flat, c))
    ensures SameShape(ready.plan.phases, before.plan.phases)
    ensures CodingStage(ready, env) == Result(Struck(before, EventAt(env, c)), Interrupted, StepsBefore(flat, c))
  {
    var max := MaxSteps(OpenCount(flat));
    if c.Round? {
      before := LoopInterrupted(ready, flat, 0, max, env, c.k);
    } else {
      WhenAllFits(flat);
      before := LoopEnds(ready, flat, 0, max, env);
      ConcludeDisturbed(before, flat, env.last);
    }
  }

  /** Pipeline interruption. Whichever check is the first to find a pause or a cancel, the job ends interrupted there:
      exactly the open subtasks completed by then, the first ones in document order, are completed, and the event's own
      effect on the plan is the only further one. */
  lemma {:induction false} PipelineInterrupted(t: Task, source: PlanSource, env: Env, c: Check)
    requires !t.progress.paused && FirstDisturbed(t, source, env, c)
    ensures var phases := CodedPhases(t, source); var flat := Flat(phases); var r := Pipeline(t, source, env);
            && r.outcome == Interrupted && r.steps == StepsBefore(flat, c)
            && SameShape(phases, r.task.plan.phases)
            && LeftBy(flat, r.steps, EventAt(env, c), r.task)
  {
    var phases := CodedPhases(t, source);
    var flat := Flat(phases);
    if c.AfterPlanning? {
      var planned := PlanStage(Refresh(t, true), source);
      DrainedNone(flat);
      StruckLeaves(planned, flat, 0, env.afterPlanning);
    } else {
      var ready := StageStart(t, source, env);
      var before := CodingInterrupted(ready, flat, env, c);
      StruckLeaves(before, flat, StepsBefore(flat, c), EventAt(env, c));
      ShapeTransitive(phases, before.plan.phases, Struck(before, EventAt(env, c)).plan.phases);
    }
  }

  /** The job ends interrupted exactly if some check that is asked finds an event. */
  lemma {:induction false} InterruptedIff(t: Task, source: PlanSource, env: Env)
    requires !t.progress.paused
    ensures Pipeline(t, source, env).outcome == Interrupted <==> !Undisturbed(t, source, env)
  {
    if Undisturbed(t, source, env) {
      PipelineDrains(t, source, env);
    } else {
      var c := SomeCheckFirst(t, source, env);
      PipelineInterrupted(t, source, env, c);
    }
  }
}
