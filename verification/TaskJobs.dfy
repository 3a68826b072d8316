/** The job actions on one task: planning, implementation, mark-stuck, cancel, recover, skip-to-phase,
    pause, resume and approval, each one atomic step on the plan, the progress record and the column. */
module TaskJobs {
  import opened Plans
  import opened Columns
  import Decimal

  /** The counters and flags of the progress record. */
  datatype Progress = Progress(running: bool, paused: bool, percent: int, completed: nat, total: nat, stuckId: string)

  datatype Task = Task(plan: Plan, progress: Progress, column: Column, requireReview: bool, approved: bool)

  /** `pct`, the percentage of finished subtasks. */
  function Percent(done: nat, total: nat): int {
    if total == 0 then 0 else done * 100 / total
  }

  function Recount(plan: Plan, running: bool, paused: bool, stuckId: string): Progress {
    var flat := Flat(plan.phases);
    Progress(running, paused, Percent(DoneCount(flat), |flat|), DoneCount(flat), |flat|, stuckId)
  }

  // ---- planning ----

  /** Where a plan comes from: the runner's model, or the built-in planner. */
  datatype PlanSource = Model(plan: Plan) | Builtin

  const READY := "ready"
  const IN_PROGRESS := "in_progress"

  function DefaultPhases(coding: seq<Subtask>): seq<Phase> {
    [Phase(1, AnyKind.Planning, [Subtask("1-0", Completed)]),
     Phase(2, AnyKind.Coding, coding),
     Phase(3, AnyKind.Review, [Subtask("3-0", Pending)])]
  }

  function NonBlank(s: string, default: string): string {
    if s == "" then default else s
  }

  /** The plan a planning job writes. A follow-up by the built-in planner appends one coding phase. */
  function Planned(stored: Plan, source: PlanSource, followUp: bool): Plan {
    match source
    case Model(p) =>
      if p.phases != [] then Plan(NonBlank(p.status, READY), NonBlank(p.planStatus, READY), p.phases)
      else Plan(READY, READY, DefaultPhases([Subtask("2-0", Pending)]))
    case Builtin =>
      if followUp && stored.phases != [] then
        var next := |stored.phases| + 1;
        Plan(READY, READY,
             stored.phases + [Phase(next, AnyKind.Coding, [Subtask(Decimal.Print(next) + "-0", Pending)])])
      else
        Plan(READY, READY, DefaultPhases([Subtask("2-0", Pending), Subtask("2-1", Pending)]))
  }

  function PlanTask(t: Task, source: PlanSource, followUp: bool): Task {
    var plan := Planned(t.plan, source, followUp);
    t.(plan := plan, progress := Recount(plan, false, false, ""),
       column := if t.requireReview then Column.HumanReview else Column.Queue)
  }

  /** A phase of the plan that a completion can start on. */
  predicate HasWork(ph: Phase) {
    ph.kind.Coding? && exists k :: 0 <= k < |ph.subtasks| && Open(ph.subtasks[k].status) && ph.subtasks[k].id != ""
  }

  /** A model's plan with phases is stored as it is, phase for phase; only blank status texts are filled in. */
  lemma {:induction false} ModelPlanStored(t: Task, p: Plan, followUp: bool)
    requires p.phases != []
    ensures var plan := PlanTask(t, Model(p), followUp).plan;
            && plan.phases == p.phases
            && plan.status == (if p.status != "" then p.status else "ready")
            && plan.planStatus == (if p.planStatus != "" then p.planStatus else "ready")
  {}

  /** A built-in follow-up keeps the phases that are there, in front and unchanged, and appends one coding phase with
      the next number, whose one subtask is pending and named after the number. */
  lemma {:induction false} FollowUpAppends(t: Task)
    requires t.plan.phases != []
    ensures var plan, n := PlanTask(t, Builtin, true).plan, |t.plan.phases|;
            && plan.status == plan.planStatus == "ready"
            && |plan.phases| == n + 1 && plan.phases[..n] == t.plan.phases
            && plan.phases[n].number == n + 1 && plan.phases[n].kind.Coding? && HasWork(plan.phases[n])
            && |plan.phases[n].subtasks| == 1 && plan.phases[n].subtasks[0].status.Pending?
            && plan.phases[n].subtasks[0].id == Decimal.Print(n + 1) + "-0"
  {
    Decimal.ValuePrint(|t.plan.phases| + 1);
    var last := PlanTask(t, Builtin, true).plan.phases[|t.plan.phases|];
    assert |last.subtasks[0].id| > 0;
  }

  /** In every other case, a plan from the model without phases included, the task gets a plan of its own: a finished
      design phase, a coding phase and a review phase, each with named subtasks, completed in the first and
      pending in the others; one coding subtask for the model, two for the built-in planner. */
  lemma {:induction false} DefaultPlanStored(t: Task, source: PlanSource, followUp: bool)
    requires if source.Model? then source.plan.phases == [] else !followUp || t.plan.phases == []
    ensures var plan := PlanTask(t, source, followUp).plan;
            && plan.status == plan.planStatus == "ready"
            && |plan.phases| == 3 && (forall i :: 0 <= i < 3 ==> plan.phases[i].number == i + 1)
            && plan.phases[0].kind.Planning? && plan.phases[1].kind.Coding? && plan.phases[2].kind.Review?
            && |plan.phases[0].subtasks| == |plan.phases[2].subtasks| == 1
            && |plan.phases[1].subtasks| == (if source.Model? then 1 else 2)
            && (forall i, k :: 0 <= i < 3 && 0 <= k < |plan.phases[i].subtasks| ==>
                  plan.phases[i].subtasks[k].id != ""
                  && if i == 0 then plan.phases[i].subtasks[k].status.Completed?
                     else plan.phases[i].subtasks[k].status.Pending?)
            && HasWork(plan.phases[1])
  {
    var plan := PlanTask(t, source, followUp).plan;
    assert plan.phases[1].subtasks[0].id == "2-0";
  }

  lemma {:induction false} DefaultPlanNames(t: Task, source: PlanSource, followUp: bool)
    requires if source.Model? then source.plan.phases == [] else !followUp || t.plan.phases == []
    ensures var phases := PlanTask(t, source, followUp).plan.phases;
            && |phases| == 3 && |phases[0].subtasks| == |phases[2].subtasks| == 1 && phases[1].subtasks != []
            && phases[0].subtasks[0].id == "1-0" && phases[2].subtasks[0].id == "3-0"
            && phases[1].subtasks[0].id == "2-0"
            && (source.Builtin? ==> |phases[1].subtasks| == 2 && phases[1].subtasks[1].id == "2-1")
  {}

  /** Whatever is planned, the task goes to human review exactly if coding needs one, and to the queue otherwise; the
      marks are cleared, the counters recounted, and the approval stays. */
  lemma {:induction false} PlanningColumn(t: Task, source: PlanSource, followUp: bool)
    ensures var r := PlanTask(t, source, followUp);
            && r.column == (if t.requireReview then Column.HumanReview else Column.Queue)
            && !r.progress.running && !r.progress.paused && r.progress.stuckId == ""
            && r.progress.total == |Flat(r.plan.phases)| && r.progress.completed == DoneCount(Flat(r.plan.phases))
            && r.requireReview == t.requireReview && r.approved == t.approved
  {}

  // ---- the other actions; each returns the task unchanged where the code returns an error ----

  predicate AwaitsApproval(t: Task) {
    t.requireReview && !t.approved && t.column == Column.HumanReview
  }

  datatype Stepped = Refused | NothingOpen | Advanced

  function ImplementOutcome(t: Task): Stepped {
    if AwaitsApproval(t) || t.plan.phases == [] then Refused
    else if FirstOpenId(t.plan.phases) == "" then NothingOpen
    else Advanced
  }

  /** `builtinImplementationOpts`: complete the next open subtask. An open subtask without an id reads
      as none at all. */
  function Implement(t: Task, keepRunning: bool): Task {
    match ImplementOutcome(t)
    case Refused => t
    case NothingOpen => t.(column := Column.Review)
    case Advanced =>
      var plan := Plan(IN_PROGRESS, IN_PROGRESS, MarkFirst(t.plan.phases, Completed));
      var progress := Recount(plan, keepRunning, t.progress.paused, t.progress.stuckId);
      t.(plan := plan, progress := progress,
         column := if progress.completed >= progress.total then Column.Review else Column.InProgress)
  }

  /** The plan and progress effect common to mark-stuck and cancel. */
  function Stick(t: Task): Task {
    var id := FirstOpenId(t.plan.phases);
    if id == "" then t
    else t.(plan := t.plan.(phases := MarkFirst(t.plan.phases, Stuck)),
            progress := t.progress.(running := false, stuckId := id))
  }

  function MarkStuck(t: Task): Task {
    if t.plan.phases == [] || FirstOpenId(t.plan.phases) == "" then t
    else Stick(t).(column := Column.InProgress)
  }

  function Recover(t: Task): Task {
    if t.plan.phases == [] || Recovered(t.plan.phases) == t.plan.phases then t
    else
      var plan := Plan(IN_PROGRESS, IN_PROGRESS, Recovered(t.plan.phases));
      t.(plan := plan, progress := Recount(plan, false, false, ""), column := Column.InProgress)
  }

  /** The column after a skip: the last phase carrying the target number decides. */
  function SkipColumn(phases: seq<Phase>, target: int): Column {
    if phases == [] then Column.InProgress
    else
      var last := phases[|phases| - 1];
      if last.number == target && last.kind.Review? then Column.Review
      else if last.number == target && last.kind.Planning? then Column.Queue
      else SkipColumn(phases[..|phases| - 1], target)
  }

  function SkipToPhase(t: Task, target: int): Task {
    if target < 1 || t.plan.phases == [] || !HasPhase(t.plan.phases, target) then t
    else
      var plan := Plan(IN_PROGRESS, IN_PROGRESS, SkippedTo(t.plan.phases, target));
      t.(plan := plan, progress := Recount(plan, false, false, ""), column := SkipColumn(plan.phases, target))
  }

  function Pause(t: Task): Task {
    if t.progress.paused then t else t.(progress := t.progress.(paused := true, running := false))
  }

  function Resume(t: Task): Task {
    if !t.progress.paused then t else t.(progress := t.progress.(paused := false, running := false))
  }

  /** `ApproveForCoding`. */
  function Approve(t: Task): Task {
    if t.column != Column.HumanReview then t else t.(column := Column.Queue, approved := true)
  }

  // ---- each action by its fields ----

  /** The same task but for its plan's subtasks, its progress record and its column. */
  predicate SameSettings(a: Task, b: Task) {
    a.requireReview == b.requireReview && a.approved == b.approved
  }

  /** An implementation job that is not refused: with nothing named to do the task only goes to review; otherwise one
      subtask is completed, the texts say so, the counters are recounted, pause and stuck mark stay, and the task is in
      review exactly if all is finished. */
  lemma {:induction false} ImplementResult(t: Task, keepRunning: bool)
    requires !ImplementOutcome(t).Refused?
    ensures var r, flat := Implement(t, keepRunning), Flat(MarkFirst(t.plan.phases, Completed));
            if FirstOpenId(t.plan.phases) == "" then r == t.(column := Column.Review)
            else
              && r.plan == Plan("in_progress", "in_progress", MarkFirst(t.plan.phases, Completed)) && SameSettings(t, r)
              && r.progress.running == keepRunning && r.progress.paused == t.progress.paused
              && r.progress.stuckId == t.progress.stuckId
              && r.progress.total == |flat| && r.progress.completed == DoneCount(flat)
              && r.column == if forall i :: 0 <= i < |flat| ==> IsDone(flat[i].status) then Column.Review
                             else Column.InProgress
  {
    var flat := Flat(MarkFirst(t.plan.phases, Completed));
    CountsBounded(flat);
    forall i | 0 <= i < |flat| ensures Finished(flat[i].status) <==> IsDone(flat[i].status) {
      StatusMeans(flat[i].status);
    }
    hide Flat;
    hide MarkFirst;
    hide DoneCount;
    hide FirstOpenId;
    hide Finished;
    hide IsDone;
  }

  /** A stuck mark or a cancel: with nothing named to do nothing happens; otherwise one subtask is stuck and recorded,
      the task is not running, and the counters are left alone. Only the mark moves the task, to in progress. */
  lemma {:induction false} StuckResult(t: Task)
    ensures var r, id := Stick(t), FirstOpenId(t.plan.phases);
            if id == "" then r == t && MarkStuck(t) == t
            else
              && r.plan == t.plan.(phases := MarkFirst(t.plan.phases, Stuck)) && SameSettings(t, r)
              && !r.progress.running && r.progress.stuckId == id && r.progress.paused == t.progress.paused
              && r.progress.completed == t.progress.completed && r.progress.total == t.progress.total
              && r.progress.percent == t.progress.percent && r.column == t.column
              && MarkStuck(t) == r.(column := Column.InProgress)
  {}

  /** Recovery: where no subtask is stuck, failed or in progress nothing happens; otherwise the marks are cleared, the
      counters recounted, and the task is in progress. */
  lemma {:induction false} RecoverResult(t: Task)
    ensures var r, flat := Recover(t), Flat(t.plan.phases);
            if forall i :: 0 <= i < |flat| ==> !ToReset(flat[i].status) then r == t
            else
              && r.plan == Plan("in_progress", "in_progress", Recovered(t.plan.phases)) && SameSettings(t, r)
              && !r.progress.running && !r.progress.paused && r.progress.stuckId == ""
              && r.progress.total == |Flat(r.plan.phases)| && r.progress.completed == DoneCount(Flat(r.plan.phases))
              && r.column == Column.InProgress
  {
    RecoveryChanges(t.plan.phases);
  }

  /** A design or review phase with the target number. */
  predicate Decides(ph: Phase, target: int) {
    ph.number == target && (ph.kind == AnyKind.Planning || ph.kind == AnyKind.Review)
  }

  /** The last such phase is at this place. */
  predicate LastToDecide(phases: seq<Phase>, target: int, i: nat) {
    i < |phases| && Decides(phases[i], target) && forall j :: i < j < |phases| ==> !Decides(phases[j], target)
  }

  /** The column after a skip: the last design or review phase with the target number decides, and without one the task
      is in progress. */
  lemma {:induction false} SkipColumnRule(phases: seq<Phase>, target: int)
    ensures var c := SkipColumn(phases, target);
            && (c == Column.InProgress <==> forall i :: 0 <= i < |phases| ==> !Decides(phases[i], target))
            && forall i: nat :: LastToDecide(phases, target, i) ==>
                 c == if phases[i].kind == AnyKind.Review then Column.Review else Column.Queue
  {
    if phases == [] {
    } else {
      var n := |phases| - 1;
      SkipColumnRule(phases[..n], target);
      if !Decides(phases[n], target) {
        forall i: nat | LastToDecide(phases, target, i) ensures LastToDecide(phases[..n], target, i) {}
      }
    }
  }

  /** A skip: to a number below 1, or that no phase has, nothing happens; otherwise the marks are cleared and the
      counters recounted. */
  lemma {:induction false} SkipResult(t: Task, target: int)
    ensures var r := SkipToPhase(t, target);
            if target < 1 || forall i :: 0 <= i < |t.plan.phases| ==> !Numbered(t.plan.phases, i, target) then r == t
            else
              && r.plan == Plan("in_progress", "in_progress", SkippedTo(t.plan.phases, target)) && SameSettings(t, r)
              && !r.progress.running && !r.progress.paused && r.progress.stuckId == ""
              && r.progress.total == |Flat(r.plan.phases)| && r.progress.completed == DoneCount(Flat(r.plan.phases))
              && r.column == SkipColumn(r.plan.phases, target)
  {
    HasPhaseNumbered(t.plan.phases, target);
    hide Flat;
    hide DoneCount;
    hide SkippedTo;
    hide SkipColumn;
    hide Numbered;
  }

  // ---- the stored records, edited in place ----

  class TaskFile {
    var plan: Plan
    var progress: Progress
    var column: Column
    var requireReview: bool
    var approved: bool

    /** `CreateTask`: an empty plan, a zero progress record, the backlog. */
    constructor (requireReview: bool)
      ensures Value() == Task(Plan("pending", "drafted", []), Progress(false, false, 0, 0, 0, ""),
                              Column.Backlog, requireReview, false)
    {
      plan, progress := Plan("pending", "drafted", []), Progress(false, false, 0, 0, 0, "");
      column, this.requireReview, approved := Column.Backlog, requireReview, false;
    }

    function Value(): Task
      reads this
    {
      Task(plan, progress, column, requireReview, approved)
    }

    /** Recomputes the counters of the stored plan into the progress record. */
    method PutRecount(running: bool, paused: bool, stuckId: string) returns (total: nat, done: nat)
      modifies this`progress
      ensures progress == Recount(plan, running, paused, stuckId)
      ensures total == |Flat(plan.phases)| && done == DoneCount(Flat(plan.phases))
    {
      total, done := CountPlanSubtasks(plan.phases);
      progress := Progress(running, paused, Percent(done, total), done, total, stuckId);
    }

    method RunPlanning(source: PlanSource, followUp: bool)
      modifies this
      ensures Value() == PlanTask(old(Value()), source, followUp)
    {
      hide Flat;
      hide DoneCount;
      plan := Planned(plan, source, followUp);
      var total, done := PutRecount(false, false, "");
      column := if requireReview then Column.HumanReview else Column.Queue;
    }

    method RunImplementation(keepRunning: bool) returns (outcome: Stepped)
      modifies this
      ensures outcome == ImplementOutcome(old(Value()))
      ensures Value() == Implement(old(Value()), keepRunning)
    {
      if requireReview && !approved && column == Column.HumanReview {
        return Refused;
      }
      if |plan.phases| == 0 {
        return Refused;
      }
      column := Column.InProgress;
      var marked, completedId := MarkFirstOpen(plan.phases, Completed);
      if completedId == "" {
        column := Column.Review;
        return NothingOpen;
      }
      plan := Plan(IN_PROGRESS, IN_PROGRESS, marked);
      var total, done := PutRecount(keepRunning, progress.paused, progress.stuckId);
      if done >= total {
        column := Column.Review;
      }
      return Advanced;
    }

    method RunMarkStuck() returns (ok: bool)
      modifies this
      ensures Value() == MarkStuck(old(Value()))
      ensures ok <==> FirstOpenId(old(plan.phases)) != ""
    {
      if |plan.phases| == 0 {
        return false;
      }
      var marked, stuckId := MarkFirstOpen(plan.phases, Stuck);
      if stuckId == "" {
        return false;
      }
      plan := plan.(phases := marked);
      progress := progress.(running := false, stuckId := stuckId);
      column := Column.InProgress;
      return true;
    }

    method MarkJobCancelledStuck()
      modifies this
      ensures Value() == Stick(old(Value()))
    {
      var marked, stuckId := MarkFirstOpen(plan.phases, Stuck);
      if stuckId == "" {
        return;
      }
      plan := plan.(phases := marked);
      progress := progress.(running := false, stuckId := stuckId);
    }

    method RunRecover()
      modifies this
      ensures Value() == Recover(old(Value()))
    {
      if |plan.phases| == 0 {
        return;
      }
      var reset, recovered := ResetSubtasks(plan.phases);
      if |recovered| == 0 {
        return;
      }
      plan := Plan(IN_PROGRESS, IN_PROGRESS, reset);
      var total, done := PutRecount(false, false, "");
      column := Column.InProgress;
    }

    method RunSkipToPhase(target: int) returns (ok: bool)
      modifies this
      ensures Value() == SkipToPhase(old(Value()), target)
      ensures ok <==> target >= 1 && HasPhase(old(plan.phases), target)
    {
      hide Flat;
      hide DoneCount;
      hide CompletedPhase;
      if target < 1 || |plan.phases| == 0 {
        return false;
      }
      var skipped, found := CompleteBefore(plan.phases, target);
      if !found {
        return false;
      }
      plan := Plan(IN_PROGRESS, IN_PROGRESS, skipped);
      var total, done := PutRecount(false, false, "");
      column := Column.InProgress;
      for i := 0 to |skipped|
        invariant plan == Plan(IN_PROGRESS, IN_PROGRESS, skipped)
        invariant column == SkipColumn(skipped[..i], target)
        invariant progress == Recount(plan, false, false, "")
        invariant requireReview == old(requireReview) && approved == old(approved)
      {
        assert skipped[..i + 1][..i] == skipped[..i];
        var ph := plan.phases[i];
        if ph.number == target && ph.kind.Review? {
          column := Column.Review;
        }
        if ph.number == target && ph.kind.Planning? {
          column := Column.Queue;
        }
      }
      assert skipped[..|skipped|] == skipped;
      return true;
    }

    method RunPause()
      modifies this`progress
      ensures Value() == Pause(old(Value()))
    {
      if progress.paused {
        return;
      }
      progress := progress.(paused := true, running := false);
    }

    method RunResume()
      modifies this`progress
      ensures Value() == Resume(old(Value()))
    {
      if !progress.paused {
        return;
      }
      progress := progress.(paused := false, running := false);
    }

    method ApproveForCoding() returns (ok: bool)
      modifies this`column, this`approved
      ensures Value() == Approve(old(Value()))
      ensures ok <==> old(column) == Column.HumanReview
    {
      if column != Column.HumanReview {
        return false;
      }
      column, approved := Column.Queue, true;
      return true;
    }
  }
}
