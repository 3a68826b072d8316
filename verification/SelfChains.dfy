/** The self-chaining implementation session: each run-implementation job completes one subtask and
    then either chains the next job, parks the task in review, or stops. */
module SelfChains {
  import opened Plans
  import opened Columns
  import opened TaskJobs
  import opened Drains

  /** `postImplementationJob` with auto-chaining on: does another job follow? */
  predicate Chains(t: Task) {
    !t.progress.paused && CodingLeft(Flat(t.plan.phases))
  }

  /** Its other effect: a task whose coding subtasks are all complete is parked in review. */
  function AfterLast(t: Task): Task {
    if !t.progress.paused && CodingComplete(Flat(t.plan.phases)) then t.(column := Column.Review) else t
  }

  method PostImplementationJob(f: TaskFile) returns (chain: bool)
    modifies f
    ensures chain == Chains(old(f.Value()))
    ensures f.Value() == if chain then old(f.Value()) else AfterLast(old(f.Value()))
  {
    if f.progress.paused {
      return false;
    }
    var pending := HasPendingCodingSubtasks(f.plan.phases);
    if pending {
      return true;
    }
    var complete := AllCodingSubtasksComplete(f.plan.phases);
    if complete {
      f.column := Column.Review;
    }
    return false;
  }

  /** The task is parked exactly if it is not paused, has a coding subtask, and all of those are completed; a plan
      without any is left where it is. */
  lemma {:induction false} ParksIffCoded(t: Task)
    ensures var flat := Flat(t.plan.phases);
            AfterLast(t) ==
            if !t.progress.paused && (exists i :: 0 <= i < |flat| && flat[i].coding)
               && (forall i :: 0 <= i < |flat| && flat[i].coding ==> flat[i].status == Completed)
            then t.(column := Column.Review) else t
    ensures var flat := Flat(t.plan.phases);
            Chains(t) <==> !t.progress.paused && exists i :: 0 <= i < |flat| && flat[i].coding
                                                            && flat[i].status != Completed && flat[i].status != Stuck
  {
    hide Flat;
  }

  datatype Session = Session(task: Task, stopped: bool, jobs: nat)

  function WithOneMore(r: Session): Session {
    r.(jobs := r.jobs + 1)
  }

  /** At most `fuel` chained run-implementation jobs, the first one included. */
  function Run(t: Task, fuel: nat): Session
    decreases fuel
  {
    if fuel == 0 then Session(t, false, 0)
    else if t.progress.paused || ImplementOutcome(t).Refused? then Session(t, true, 1)
    else
      var t' := Implement(t, false);
      if Chains(t') then WithOneMore(Run(t', fuel - 1))
      else Session(AfterLast(t'), true, 1)
  }

  // ---- where the chain stands ----

  /** After `k` completions of the items `flat`, ready for another job. */
  ghost predicate Standing(t: Task, flat: seq<Item>, k: nat) {
    && k <= Drainable(flat)
    && Flat(t.plan.phases) == Drained(flat, k)
    && !t.progress.paused
    && !AwaitsApproval(t)
    && t.plan.phases != []
  }

  lemma {:induction false} JobAdvances(t: Task, flat: seq<Item>, k: nat)
    requires Standing(t, flat, k) && k < Drainable(flat)
    ensures ImplementOutcome(t).Advanced? && Standing(Implement(t, false), flat, k + 1)
    ensures Implement(t, false).column ==
            if DoneCount(flat) + k + 1 == |flat| then Column.Review else Column.InProgress
  {
    StepDrains(t, flat, k, false);
    FlatNone();
  }

  lemma {:induction false} JobStalls(t: Task, flat: seq<Item>)
    requires Standing(t, flat, Drainable(flat))
    ensures ImplementOutcome(t).NothingOpen? && Standing(Implement(t, false), flat, Drainable(flat))
  {
    StepsEnd(t.plan.phases, flat);
  }

  // ---- when it stops ----

  /** Every coding subtask is completed, stuck, or open among those the session can complete. */
  ghost predicate Settles(flat: seq<Item>) {
    forall i :: 0 <= i < |flat| && flat[i].coding ==>
      || flat[i].status.Completed?
      || flat[i].status.Stuck?
      || (Open(flat[i].status) && i < FirstNameless(flat))
  }

  lemma {:induction false} LeftAfter(flat: seq<Item>, k: nat)
    requires k <= Drainable(flat)
    ensures !Settles(flat) ==> CodingLeft(Drained(flat, k))
    ensures Settles(flat) && k == Drainable(flat) ==> !CodingLeft(Drained(flat, k))
  {
    var n, cur := FirstNameless(flat), Drained(flat, k);
    if !Settles(flat) {
      var i :| 0 <= i < |flat| && flat[i].coding && !flat[i].status.Completed? && !flat[i].status.Stuck?
               && !(Open(flat[i].status) && i < n);
      if Open(flat[i].status) {
        OpenCountMonotone(flat, n, i);
      }
      assert cur[i] == flat[i];
    } else if k == Drainable(flat) {
      forall i | 0 <= i < |flat| && cur[i].coding
        ensures cur[i].status.Completed? || cur[i].status.Stuck?
      {
        if Open(flat[i].status) {
          OpenCountMonotone(flat, i, n);
        }
      }
    }
  }

  lemma {:induction false} RunOne(t: Task, fuel: nat)
    requires fuel > 0 && !t.progress.paused && !ImplementOutcome(t).Refused?
    ensures var t' := Implement(t, false);
            Run(t, fuel) ==
            if Chains(t') then WithOneMore(Run(t', fuel - 1))
            else Session(AfterLast(t'), true, 1)
  {}

  lemma {:induction false} MoreToDo(t: Task, flat: seq<Item>, k: nat, fuel: nat) returns (t': Task, next: nat)
    requires Standing(t, flat, k) && !Settles(flat) && fuel > 0
    ensures Standing(t', flat, next) && Run(t, fuel) == WithOneMore(Run(t', fuel - 1))
  {
    t' := Implement(t, false);
    next := if k < Drainable(flat) then k + 1 else k;
    if k < Drainable(flat) {
      JobAdvances(t, flat, k);
    } else {
      JobStalls(t, flat);
    }
    LeftAfter(flat, next);
    RunOne(t, fuel);
  }

  lemma {:induction false} RunNone(t: Task)
    ensures !Run(t, 0).stopped
  {}

  lemma {:induction false} NeverStops(t: Task, flat: seq<Item>, k: nat, fuel: nat)
    requires Standing(t, flat, k) && !Settles(flat)
    ensures !Run(t, fuel).stopped
    decreases fuel
  {
    hide Standing;
    hide Settles;
    hide Run;
    if fuel == 0 {
      RunNone(t);
    } else {
      var t', next := MoreToDo(t, flat, k, fuel);
      NeverStops(t', flat, next, fuel - 1);
    }
  }

  /** A stopped session: where it stopped, and in which column. */
  ghost predicate StoppedWell(r: Session, flat: seq<Item>, k: nat) {
    && r.stopped
    && k <= Drainable(flat)
    && Flat(r.task.plan.phases) == Drained(flat, k)
    && !CodingLeft(Drained(flat, k))
    && (r.task.column == Column.Review <==>
        CodingComplete(Drained(flat, k)) || DoneCount(flat) + k == |flat|)
  }

  lemma {:induction false} NextJob(t: Task, flat: seq<Item>, k: nat, fuel: nat) returns (t': Task)
    requires Standing(t, flat, k) && k < Drainable(flat) && fuel > 0
    ensures Standing(t', flat, k + 1)
    ensures t'.column == if DoneCount(flat) + k + 1 == |flat| then Column.Review else Column.InProgress
    ensures CodingLeft(Drained(flat, k + 1)) ==> Run(t, fuel) == WithOneMore(Run(t', fuel - 1))
    ensures !CodingLeft(Drained(flat, k + 1)) ==> Run(t, fuel) == Session(AfterLast(t'), true, 1)
  {
    t' := Implement(t, false);
    JobAdvances(t, flat, k);
    RunOne(t, fuel);
  }

  /** The chain reaches its last job, the one after which no coding is left. */
  lemma {:induction false} ReachesLast(t: Task, flat: seq<Item>, k: nat, fuel: nat) returns (end: nat, done: Task)
    requires Standing(t, flat, k) && k < Drainable(flat) && !CodingLeft(Drained(flat, Drainable(flat)))
    requires fuel >= Drainable(flat) - k
    ensures k < end && Standing(done, flat, end) && !CodingLeft(Drained(flat, end))
    ensures done.column == if DoneCount(flat) + end == |flat| then Column.Review else Column.InProgress
    ensures Run(t, fuel).task == AfterLast(done)
    ensures Run(t, fuel).stopped && Run(t, fuel).jobs == end - k
    decreases fuel
  {
    hide Run;
    hide Standing;
    hide Drained;
    hide DoneCount;
    var t' := NextJob(t, flat, k, fuel);
    if CodingLeft(Drained(flat, k + 1)) {
      end, done := ReachesLast(t', flat, k + 1, fuel - 1);
    } else {
      end, done := k + 1, t';
    }
  }

  lemma {:induction false} StopsInTime(t: Task, flat: seq<Item>, fuel: nat) returns (end: nat)
    requires Standing(t, flat, 0) && 0 < Drainable(flat) && !CodingLeft(Drained(flat, Drainable(flat)))
    requires fuel >= Drainable(flat)
    ensures StoppedWell(Run(t, fuel), flat, end) && Run(t, fuel).jobs == end
  {
    var done: Task;
    end, done := ReachesLast(t, flat, 0, fuel);
  }

  ghost predicate Ready(t: Task) {
    !t.progress.paused && !AwaitsApproval(t) && t.plan.phases != []
  }

  /** Auto-chain termination, exactly. From a task with a plan that is neither paused nor waiting for
      approval, the session stops after finitely many jobs if and only if each coding subtask is
      completed, stuck, or open before the first open subtask without an id. In particular a coding
      subtask that is `done`, `failed` or of an unknown status chains jobs for ever. */
  lemma {:induction false} SessionStopsIff(t: Task)
    requires Ready(t)
    ensures (exists fuel :: Run(t, fuel).stopped) <==> Settles(Flat(t.plan.phases))
  {
    var flat := Flat(t.plan.phases);
    DrainedNone(flat);
    if Settles(flat) {
      if Drainable(flat) > 0 {
        LeftAfter(flat, Drainable(flat));
        var end := StopsInTime(t, flat, Drainable(flat));
      } else {
        JobStalls(t, flat);
        LeftAfter(flat, 0);
        assert Run(t, 1).stopped;
      }
    } else {
      forall fuel: nat ensures !Run(t, fuel).stopped {
        NeverStops(t, flat, 0, fuel);
      }
    }
  }

  /** When it stops there is a bound: one job for each open subtask. And where some coding subtask was
      open to begin with, the task ends in review exactly when no coding subtask was stuck, that is,
      when all of them are now completed. */
  lemma {:induction false} SessionOutcome(t: Task)
    requires Ready(t) && Settles(Flat(t.plan.phases))
    requires exists i :: 0 <= i < |Flat(t.plan.phases)| &&
               Flat(t.plan.phases)[i].coding && Open(Flat(t.plan.phases)[i].status)
    ensures var flat := Flat(t.plan.phases); var r := Run(t, OpenCount(flat));
            && r.stopped && r.jobs <= OpenCount(flat)
            && (r.task.column == Column.Review <==> CodingComplete(Flat(r.task.plan.phases)))
            && (CodingComplete(Flat(r.task.plan.phases)) <==>
                forall i :: 0 <= i < |flat| && flat[i].coding ==> !flat[i].status.Stuck?)
  {
    var flat := Flat(t.plan.phases);
    DrainedNone(flat);
    SomethingDrains(flat);
    LeftAfter(flat, Drainable(flat));
    var end := StopsInTime(t, flat, OpenCount(flat));
    StuckStays(flat, end);
    ReviewMeansCoded(flat, end);
  }

  lemma {:induction false} SomethingDrains(flat: seq<Item>)
    requires Settles(flat)
    requires exists i :: 0 <= i < |flat| && flat[i].coding && Open(flat[i].status)
    ensures 0 < Drainable(flat) <= OpenCount(flat)
  {
    var i :| 0 <= i < |flat| && flat[i].coding && Open(flat[i].status);
    OpenCountMonotone(flat, i, FirstNameless(flat));
    DrainableBound(flat);
  }

  /** A plan that is finished as a whole, with no coding left, has its coding complete. */
  lemma {:induction false} ReviewMeansCoded(flat: seq<Item>, k: nat)
    requires k <= Drainable(flat) && !CodingLeft(Drained(flat, k))
    requires exists i :: 0 <= i < |flat| && flat[i].coding
    ensures DoneCount(flat) + k == |flat| ==> CodingComplete(Drained(flat, k))
  {
    var final := Drained(flat, k);
    DrainableBound(flat);
    DrainedCounts(flat, k);
    CountsBounded(final);
    var i :| 0 <= i < |flat| && flat[i].coding;
    assert final[i].coding;
  }

  lemma {:induction false} StuckStays(flat: seq<Item>, k: nat)
    requires !CodingLeft(Drained(flat, k))
    requires exists i :: 0 <= i < |flat| && flat[i].coding
    ensures CodingComplete(Drained(flat, k)) <==>
            forall i :: 0 <= i < |flat| && flat[i].coding ==> !flat[i].status.Stuck?
  {
    var cur := Drained(flat, k);
    forall i | 0 <= i < |flat| && flat[i].coding
      ensures cur[i].coding && (cur[i].status.Completed? <==> !flat[i].status.Stuck?)
    {
      assert cur[i].coding;
    }
    var i :| 0 <= i < |flat| && flat[i].coding;
    assert cur[i].coding;
  }
}
