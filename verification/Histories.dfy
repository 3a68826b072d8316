/** What every run of job actions keeps: the progress record is a correct cache of the plan, a recorded
    stuck subtask is stuck, and between planning jobs no finished subtask is ever undone. */
module Histories {
  import opened Plans
  import opened Columns
  import opened TaskJobs
  import opened Pipelines
  import SelfChains

  datatype Action =
    | PlanJob(source: PlanSource, followUp: bool)
    | ImplementJob
    | PipelineJob(source: PlanSource, env: Env)
    | MarkStuckJob
    | CancelActiveJob
    | RecoverJob
    | SkipJob(target: int)
    | PauseJob
    | ResumeJob
    | ApproveTask
    | MoveTask(to: Column)
    | EditTask(requireReview: bool)

  /** `taskPausedBlock`: planning, implementation and pipeline jobs do nothing while the task is paused. */
  predicate PausedBlock(t: Task, a: Action) {
    t.progress.paused && (a.PlanJob? || a.ImplementJob? || a.PipelineJob?)
  }

  function Exec(t: Task, a: Action): Task {
    if PausedBlock(t, a) then t
    else
      match a
      case PlanJob(source, followUp) => PlanTask(t, source, followUp)
      case ImplementJob =>
        if ImplementOutcome(t).Refused? then t else SelfChains.AfterLast(Implement(t, false))
      case PipelineJob(source, env) => Pipeline(t, source, env).task
      case MarkStuckJob => MarkStuck(t)
      case CancelActiveJob => Stick(t)
      case RecoverJob => Recover(t)
      case SkipJob(target) => SkipToPhase(t, target)
      case PauseJob => Pause(t)
      case ResumeJob => Resume(t)
      case ApproveTask => Approve(t)
      case MoveTask(to) => t.(column := to)
      case EditTask(requireReview) => t.(requireReview := requireReview)
  }

  function Run(t: Task, actions: seq<Action>): Task {
    if actions == [] then t else Exec(Run(t, actions[..|actions| - 1]), actions[|actions| - 1])
  }

  // ---- the invariants ----

  /** The three counters are what a fresh recount of the stored plan gives. */
  predicate Cached(t: Task) {
    var flat := Flat(t.plan.phases);
    && t.progress.total == |flat|
    && t.progress.completed == DoneCount(flat)
    && t.progress.percent == Percent(DoneCount(flat), |flat|)
  }

  ghost predicate HasStuck(flat: seq<Item>, id: string) {
    exists i :: 0 <= i < |flat| && flat[i].id == id && flat[i].status.Stuck?
  }

  ghost predicate Sound(t: Task) {
    && Cached(t)
    && (t.progress.stuckId != "" ==> HasStuck(Flat(t.plan.phases), t.progress.stuckId))
  }

  /** The phases keep their shape and subtask ids, and what was finished stays finished. */
  ghost predicate Preserves(a: seq<Phase>, b: seq<Phase>) {
    && SameShape(a, b)
    && |Flat(a)| == |Flat(b)|
    && (forall i :: 0 <= i < |Flat(a)| && Finished(Flat(a)[i].status) ==> Finished(Flat(b)[i].status))
  }

  /** Preserves, and nothing newly finished either. */
  ghost predicate FinishesNothing(a: seq<Phase>, b: seq<Phase>) {
    && Preserves(a, b)
    && (forall i :: 0 <= i < |Flat(a)| && Finished(Flat(b)[i].status) ==> Finished(Flat(a)[i].status))
  }

  lemma {:induction false} PreservesSelf(a: seq<Phase>)
    ensures FinishesNothing(a, a)
  {}

  lemma {:induction false} PreservesTransitive(a: seq<Phase>, b: seq<Phase>, c: seq<Phase>)
    requires Preserves(a, b) && Preserves(b, c)
    ensures Preserves(a, c)
  {
    ShapeTransitive(a, b, c);
  }

  /** The percentage is the finished part in hundredths, rounded down: between 0 and 100, and 100 exactly when
      everything is finished. */
  lemma {:induction false} PercentMeaning(t: Task)
    requires Cached(t)
    ensures 0 <= t.progress.percent <= 100
    ensures t.progress.percent == 100 <==>
            t.progress.completed == t.progress.total > 0
    ensures forall m: nat :: t.progress.total > 0 ==>
              (t.progress.percent >= m <==> 100 * t.progress.completed >= m * t.progress.total)
  {
    forall m: nat | t.progress.total > 0
      ensures t.progress.percent >= m <==> 100 * t.progress.completed >= m * t.progress.total
    {
      QuotientAtLeast(t.progress.completed * 100, t.progress.total, m);
    }
    CountsBounded(Flat(t.plan.phases));
    if t.progress.total > 0 {
      PercentBounds(t.progress.completed, t.progress.total);
    }
  }

  lemma {:induction false} PercentBounds(done: nat, total: nat)
    requires done <= total && 0 < total
    ensures 0 <= Percent(done, total) <= 100
    ensures Percent(done, total) == 100 <==> done == total
  {
    QuotientAtLeast(done * 100, total, 100);
    QuotientAtLeast(done * 100, total, 101);
  }

  lemma {:induction false} QuotientAtLeast(n: nat, d: nat, m: nat)
    requires 0 < d
    ensures n / d >= m <==> n >= m * d
  {
    var q := n / d;
    assert q * d <= n < q * d + d;
    if q >= m {
      TimesMonotone(m, q, d);
    } else {
      TimesMonotone(q + 1, m, d);
      assert (q + 1) * d == q * d + d;
    }
  }

  lemma {:induction false} TimesMonotone(a: nat, b: nat, d: nat)
    requires a <= b
    ensures a * d <= b * d
  {
    assert (b - a) * d >= 0;
    assert b * d == a * d + (b - a) * d;
  }

  // ---- one first-open item changes ----

  lemma {:induction false} CountAfterMark(flat: seq<Item>, n: nat, st: Status)
    requires n < |flat| && Open(flat[n].status) && !Finished(st)
    ensures DoneCount(flat[n := flat[n].(status := st)]) == DoneCount(flat)
  {
    var m, marked := |flat| - 1, flat[n := flat[n].(status := st)];
    if n < m {
      CountAfterMark(flat[..m], n, st);
      assert marked[..m] == flat[..m][n := flat[n].(status := st)];
    } else {
      assert marked[..m] == flat[..m];
    }
  }

  lemma {:induction false} MarkKeepsStuck(flat: seq<Item>, n: nat, st: Status, id: string)
    requires n < |flat| && Open(flat[n].status) && HasStuck(flat, id)
    ensures HasStuck(flat[n := flat[n].(status := st)], id)
  {
    var i :| 0 <= i < |flat| && flat[i].id == id && flat[i].status.Stuck?;
    assert flat[n := flat[n].(status := st)][i] == flat[i];
  }

  lemma {:induction false} MarkPreserves(phases: seq<Phase>, st: Status)
    ensures Preserves(phases, MarkFirst(phases, st))
    ensures !Finished(st) ==> FinishesNothing(phases, MarkFirst(phases, st))
  {
    MarkFirstFlat(phases, st);
  }

  lemma {:induction false} ImplementSafe(t: Task, keepRunning: bool)
    requires Sound(t)
    ensures Sound(Implement(t, keepRunning))
    ensures Preserves(t.plan.phases, Implement(t, keepRunning).plan.phases)
    ensures Implement(t, keepRunning).progress.paused == t.progress.paused
  {
    hide MarkFirst;
    hide SameShape;
    hide Flat;
    hide DoneCount;
    PreservesSelf(t.plan.phases);
    MarkPreserves(t.plan.phases, Completed);
    MarkFirstFlat(t.plan.phases, Completed);
    var flat := Flat(t.plan.phases);
    if ImplementOutcome(t).Advanced? && t.progress.stuckId != "" {
      MarkKeepsStuck(flat, First(flat), Completed, t.progress.stuckId);
    }
  }

  lemma {:induction false} StickSafe(t: Task)
    requires Sound(t)
    ensures Sound(Stick(t)) && FinishesNothing(t.plan.phases, Stick(t).plan.phases)
  {
    PreservesSelf(t.plan.phases);
    MarkPreserves(t.plan.phases, Stuck);
    MarkFirstFlat(t.plan.phases, Stuck);
    var flat := Flat(t.plan.phases);
    if FirstOpenId(t.plan.phases) != "" {
      var n := First(flat);
      CountAfterMark(flat, n, Stuck);
      assert flat[n := flat[n].(status := Stuck)][n].status.Stuck?;
    }
  }

  lemma {:induction false} RecoverSafe(t: Task)
    requires Sound(t)
    ensures Sound(Recover(t)) && FinishesNothing(t.plan.phases, Recover(t).plan.phases)
  {
    PreservesSelf(t.plan.phases);
    RecoveredFlat(t.plan.phases);
  }

  lemma {:induction false} SkipSafe(t: Task, target: int)
    requires Sound(t)
    ensures Sound(SkipToPhase(t, target)) && Preserves(t.plan.phases, SkipToPhase(t, target).plan.phases)
    ensures SkipToPhase(t, target) != t ==> !SkipToPhase(t, target).progress.paused
  {
    PreservesSelf(t.plan.phases);
    SkippedFlat(t.plan.phases, SkippedTo(t.plan.phases, target));
  }

  lemma {:induction false} StruckSafe(t: Task, e: Event)
    requires Sound(t)
    ensures Sound(Struck(t, e)) && Preserves(t.plan.phases, Struck(t, e).plan.phases)
  {
    StickSafe(t);
    PreservesSelf(t.plan.phases);
  }

  lemma {:induction false} DrainSafe(t: Task, i: nat, max: nat, env: Env)
    requires Sound(t)
    ensures Sound(DrainLoop(t, i, max, env).task)
    ensures Preserves(t.plan.phases, DrainLoop(t, i, max, env).task.plan.phases)
    decreases max - i
  {
    PreservesSelf(t.plan.phases);
    if i >= max {
    } else {
      var t1 := Struck(t, env.during(i));
      StruckSafe(t, env.during(i));
      if !Blocks(t, env.during(i)) && FirstOpenId(t1.plan.phases) != "" {
        var t2 := Refresh(t1, true);
        if !ImplementOutcome(t2).Refused? {
          var t3 := Implement(t2, true);
          ImplementSafe(t2, true);
          PreservesTransitive(t.plan.phases, t1.plan.phases, t3.plan.phases);
          DrainSafe(t3, i + 1, max, env);
          PreservesTransitive(t.plan.phases, t3.plan.phases, DrainLoop(t3, i + 1, max, env).task.plan.phases);
        }
      }
    }
  }

  lemma {:induction false} ConcludeSafe(t: Task, steps: nat, last: Event)
    requires Sound(t)
    ensures Sound(Conclude(t, steps, last).task) && Preserves(t.plan.phases, Conclude(t, steps, last).task.plan.phases)
  {
    PreservesSelf(t.plan.phases);
    StruckSafe(t, last);
    hide Struck;
    hide SameShape;
    hide Flat;
    assert Conclude(t, steps, last).task.plan == t.plan || Conclude(t, steps, last).task.plan == Struck(t, last).plan;
  }

  lemma {:induction false} CodingSafe(t: Task, env: Env)
    requires Sound(t)
    ensures Sound(CodingStage(t, env).task) && Preserves(t.plan.phases, CodingStage(t, env).task.plan.phases)
  {
    var r := DrainLoop(t, 0, MaxSteps(OpenCount(Flat(t.plan.phases))), env);
    DrainSafe(t, 0, MaxSteps(OpenCount(Flat(t.plan.phases))), env);
    ConcludeSafe(r.task, r.steps, env.last);
    PreservesTransitive(t.plan.phases, r.task.plan.phases, CodingStage(t, env).task.plan.phases);
  }

  /** A task that differs in nothing the invariants speak of. */
  lemma {:induction false} Unaffected(t: Task, t': Task)
    requires Sound(t) && t'.plan.phases == t.plan.phases && t'.progress.total == t.progress.total
    requires t'.progress.completed == t.progress.completed && t'.progress.percent == t.progress.percent
    requires t'.progress.stuckId == t.progress.stuckId
    ensures Sound(t') && FinishesNothing(t.plan.phases, t'.plan.phases)
  {
    PreservesSelf(t.plan.phases);
  }

  lemma {:induction false} PlanSafe(t: Task, source: PlanSource, followUp: bool)
    ensures Sound(PlanTask(t, source, followUp))
  {}

  lemma {:induction false} PlanStageSafe(t: Task, source: PlanSource)
    requires Sound(t)
    ensures Sound(PlanStage(t, source))
    ensures t.plan.phases != [] ==> PlanStage(t, source) == t
  {
    PlanSafe(Refresh(t, true), source, false);
  }

  lemma {:induction false} AutoApproveSafe(t: Task)
    requires Sound(t)
    ensures Sound(AutoApprove(t)) && AutoApprove(t).plan == t.plan
  {}

  lemma {:induction false} StagesSafe(t: Task, source: PlanSource, env: Env)
    requires Sound(t)
    ensures Sound(Stages(t, source, env).task)
    ensures t.plan.phases != [] ==> Preserves(t.plan.phases, Stages(t, source, env).task.plan.phases)
  {
    hide Sound;
    hide Preserves;
    hide PlanStage;
    hide Struck;
    hide AutoApprove;
    hide CodingStage;
    var planned := PlanStage(t, source);
    PlanStageSafe(t, source);
    StruckSafe(planned, env.afterPlanning);
    var ready := if t.plan.phases == [] then Struck(planned, env.afterPlanning) else planned;
    AutoApproveSafe(ready);
    CodingSafe(AutoApprove(ready), env);
  }

  lemma {:induction false} PipelineSafe(t: Task, source: PlanSource, env: Env)
    requires Sound(t)
    ensures Sound(Pipeline(t, source, env).task)
    ensures t.plan.phases != [] ==> Preserves(t.plan.phases, Pipeline(t, source, env).task.plan.phases)
  {
    StagesSafe(Refresh(t, true), source, env);
  }

  // ---- runs ----

  /** Actions that may write a new plan. */
  predicate MayPlan(t: Task, a: Action) {
    a.PlanJob? || (a.PipelineJob? && t.plan.phases == [])
  }

  /** Every action keeps the progress record a correct cache and its stuck subtask stuck; every action
      that does not plan keeps the plan's shape and ids and never undoes a finished subtask. */
  lemma {:induction false} ExecSafe(t: Task, a: Action)
    requires Sound(t)
    ensures Sound(Exec(t, a))
    ensures !MayPlan(t, a) ==> Preserves(t.plan.phases, Exec(t, a).plan.phases)
  {
    hide Sound;
    hide Implement;
    hide Pipeline;
    hide PlanTask;
    hide Stick;
    hide Recover;
    hide SkipToPhase;
    hide SameShape;
    hide Flat;
    PreservesSelf(t.plan.phases);
    match a {
      case PlanJob(source, followUp) => PlanSafe(t, source, followUp);
      case ImplementJob =>
        ImplementSafe(t, false);
        Unaffected(Implement(t, false), SelfChains.AfterLast(Implement(t, false)));
      case PipelineJob(source, env) => PipelineSafe(t, source, env);
      case MarkStuckJob =>
        StickSafe(t);
        Unaffected(Stick(t), Stick(t).(column := Column.InProgress));
      case CancelActiveJob => StickSafe(t);
      case RecoverJob => RecoverSafe(t);
      case SkipJob(target) => SkipSafe(t, target);
      case PauseJob => Unaffected(t, Pause(t));
      case ResumeJob => Unaffected(t, Resume(t));
      case ApproveTask => Unaffected(t, Approve(t));
      case MoveTask(to) => Unaffected(t, t.(column := to));
      case EditTask(requireReview) => Unaffected(t, t.(requireReview := requireReview));
    }
  }

  /** Progress is a correct cache at every action boundary of every run from a new task, and a recorded
      stuck subtask is stuck there. */
  lemma {:induction false} RunSound(t: Task, actions: seq<Action>)
    requires Sound(t)
    ensures Sound(Run(t, actions))
  {
    if actions == [] {
    } else {
      RunSound(t, actions[..|actions| - 1]);
      ExecSafe(Run(t, actions[..|actions| - 1]), actions[|actions| - 1]);
    }
  }

  ghost predicate NeverPlans(t: Task, actions: seq<Action>) {
    forall i :: 0 <= i < |actions| ==> !MayPlan(Run(t, actions[..i]), actions[i])
  }

  /** Over any run without planning, the phases and subtask ids stay as they were and what was once
      finished stays finished. */
  lemma {:induction false} RunPreserves(t: Task, actions: seq<Action>)
    requires Sound(t) && NeverPlans(t, actions)
    ensures Preserves(t.plan.phases, Run(t, actions).plan.phases)
  {
    PreservesSelf(t.plan.phases);
    if actions == [] {
    } else {
      var n := |actions| - 1;
      var front := actions[..n];
      forall i | 0 <= i < |front| ensures !MayPlan(Run(t, front[..i]), front[i]) {
        assert front[..i] == actions[..i] && front[i] == actions[i];
      }
      RunPreserves(t, front);
      RunSound(t, front);
      ExecSafe(Run(t, front), actions[n]);
      PreservesTransitive(t.plan.phases, Run(t, front).plan.phases, Run(t, actions).plan.phases);
    }
  }

  /** While a task is paused nothing but a skip finishes a subtask, and a skip that does anything clears
      the pause. */
  lemma {:induction false} PausedFinishesNothing(t: Task, a: Action)
    requires Sound(t) && t.progress.paused
    ensures !a.SkipJob? ==> FinishesNothing(t.plan.phases, Exec(t, a).plan.phases)
    ensures a.SkipJob? && Exec(t, a) != t ==> !Exec(t, a).progress.paused
  {
    PreservesSelf(t.plan.phases);
    match a {
      case MarkStuckJob => StickSafe(t);
      case CancelActiveJob => StickSafe(t);
      case RecoverJob => RecoverSafe(t);
      case SkipJob(target) => SkipSafe(t, target);
      case _ =>
    }
  }

  // ---- what undoes what ----

  /** Resuming undoes a pause, except that the running mark is off; in between no planning, implementation or pipeline
      job does anything. */
  lemma {:induction false} ResumeUndoesPause(t: Task, a: Action)
    requires a.PlanJob? || a.ImplementJob? || a.PipelineJob?
    ensures var p := Exec(t, PauseJob);
            && p.progress.paused && p == t.(progress := p.progress) && Exec(p, a) == p
            && Exec(p, ResumeJob) == t.(progress := t.progress.(paused := false, running := false))
            && (if t.progress.paused then p == t else !p.progress.running && Exec(t, ResumeJob) == t)
  {}

  /** The approval gate: an implementation job is refused exactly for an empty plan and for a task that waits in human
      review without an approval; a refused job changes nothing, and approving such a task opens the gate. */
  lemma {:induction false} ApprovalGate(t: Task)
    ensures ImplementOutcome(t).Refused? <==>
              t.plan.phases == [] || (t.requireReview && !t.approved && t.column == Column.HumanReview)
    ensures ImplementOutcome(t).Refused? ==> Exec(t, ImplementJob) == Implement(t, true) == Implement(t, false) == t
    ensures t.plan.phases != [] && t.column == Column.HumanReview ==>
              !ImplementOutcome(Exec(t, ApproveTask)).Refused? && Exec(t, ApproveTask).approved
    ensures Exec(t, ApproveTask) ==
            if t.column == Column.HumanReview then t.(column := Column.Queue, approved := true) else t
  {}

  /** Recovery undoes a stuck mark: afterwards the marked subtask is pending again, every other one is where a
      recovery alone would have put it, nothing finished is lost, and neither the stuck mark nor a pause is left. */
  lemma {:induction false} RecoverUndoesStuck(t: Task)
    requires FirstOpenId(t.plan.phases) != ""
    ensures var flat, r := Flat(t.plan.phases), Recover(MarkStuck(t)); var n := First(flat);
            && n < |flat| == |Flat(r.plan.phases)| && Flat(r.plan.phases)[n] == flat[n].(status := Pending)
            && (forall j :: 0 <= j < |flat| && j != n ==> RecoveredItem(flat[j], Flat(r.plan.phases)[j]))
            && SameShape(t.plan.phases, r.plan.phases)
            && r.progress == Recount(r.plan, false, false, "") && r.column == Column.InProgress
  {
    var phases := t.plan.phases;
    var marked := MarkFirst(phases, Stuck);
    MarkFirstFlat(phases, Stuck);
    RecoveredFlat(marked);
    RecoveredByStatus(marked);
    ShapeTransitive(phases, marked, Recovered(marked));
    var n := First(Flat(phases));
    hide SameShape;
    hide MarkFirst;
    hide Recovered;
    hide Flat;
    assert Flat(marked)[n].status == Stuck;
    assert Recovered(marked) != marked;
  }

  // ---- a task's whole life ----

  function NewTask(requireReview: bool): Task {
    Task(Plan("pending", "drafted", []), Progress(false, false, 0, 0, 0, ""), Column.Backlog, requireReview, false)
  }

  /** From its creation on, whatever is done to a task, its progress is at every action boundary a correct cache with a
      percentage between 0 and 100, and a recorded stuck subtask is stuck. */
  lemma {:induction false} LifeSound(requireReview: bool, actions: seq<Action>)
    ensures var t := Run(NewTask(requireReview), actions);
            Sound(t) && 0 <= t.progress.percent <= 100
            && (t.progress.percent == 100 <==> t.progress.completed == t.progress.total > 0)
  {
    assert Sound(NewTask(requireReview));
    RunSound(NewTask(requireReview), actions);
    PercentMeaning(Run(NewTask(requireReview), actions));
  }
}
