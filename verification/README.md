# OPM-API: a verified model

OPM-API plans, runs and delivers coding tasks. This project models the parts of it that make promises over
unbounded inputs and runs, and proves them in Dafny. `dafny verify dfyconfig.toml` checks everything.

The modules follow the program:

- `Paths`, `ChangeSets`, `Sessions`: the change set of a coding session. Paths are accepted or refused by a lexical
  cleaner; each step's file changes are applied to the session's tree and merged into a record; delivery applies
  only the record to a fresh clone. The main result is that the record replays the session, with the exact
  condition for one step and an example for every kind of step that has to be excluded. An entry that fails in the
  write phase leaves the entries before it applied, and its step is not recorded.
- `Plans`, `TaskJobs`, `Drains`, `Pipelines`, `SelfChains`, `Histories`: the plan of a task and the jobs that
  rewrite it. Subtasks are looked at in document order; what `k` completions do to a plan is described at once by
  `Drains.Drained`, and the pipeline's bounded loop and the self-chaining session are proved to do exactly that.
  `Histories` states what every run of actions keeps.
- `Boards`, `Slugs`, `Columns`, `Decimal`: the board as an index over tasks, and the minting of spec ids and
  branch names.
- `RoadmapPhases`, `RoadmapFeatures`, `Publishing`, `Sorting`: merging proposed phases, taking in features, and
  publishing them as issues at most once.
- `EnvFiles`, `Failover`, `JobChains`: model endpoints from the resolver through the env file to the runner, the
  runner's walk over them, and who a chain of jobs runs as and which model it may be pinned to.
- `Text`, `Options`, `Positions`: the string functions of Go's library, over ASCII, optional values, and positions
  picked from a list.

Code that updates state is modelled by classes and loops that update state. Each such method is proved against a
function of its inputs or of the old state, and the results are lemmas about these functions. What the functions make
of the fields they are given is stated in lemmas too, in terms of those fields, so that the results do not rest on the
definitions alone. A tree is a map from cleaned paths to contents, a patch is any partial function on one file's
contents, and everything that comes from outside (model output, fresh ids, the results of calls, an operator pausing
or cancelling between two steps) is a parameter about which nothing is assumed beyond what a `requires` says.

Where code and comments disagree, the model follows the code:

- The pipeline and the counters disagree with the coding-session predicates about `done`: it counts as finished
  for progress and parking, and as still to do for chaining. A coding subtask that is `done`, `failed` or of an
  unknown status makes the session chain jobs for ever (`SelfChains.SessionStopsIff`).
- A job's model override is documented as being for that job only (models.go:244), but the jobs created from it
  inherit it, across agent phases too. `JobChains.OverrideSentOnIff` says exactly when it is sent on (a created job
  without an AI phase sends nothing, and a pin in force may ask for another model), and
  `JobChains.OverrideCrossesPhases` gives an instance; `JobChains.ChainIsolation` allows it as the root's own choice.
- A path whose walk ends exactly one directory above the workspace, such as `..` or `a/../..`, is refused as
  resolving to the workspace root, not as escaping (`Paths.RejectionIsWhereTheWalkEnds`, `Paths.ClimbReadsAsRoot`).
- The path check judges the trimmed path, but the path is written as it was given. An accepted path still stays below
  the workspace and out of `.git` (`Paths.AcceptedStaysWithinRoot`, `Paths.AcceptedPlace`), but blanks behind it can
  make it name a file in the workflow directory, which the check is documented to refuse (delivery_changes.go:226-228);
  `Paths.WrittenBelowWorkflowsIff` says exactly when. In sessions `normalizeChangeSet` trims the paths first, which
  rules this out (`ChangeSets.NormalizedPlace`).
- A line break in an endpoint's setting is documented to forge entries of the env file and is stripped
  (job_model_config.go:153-157), but the unnumbered lines are written as they are, the primary key among them
  (spawn_container.go:223-226). `EnvFiles.RoundTrip` says exactly when the endpoints come back all the same, and
  `EnvFiles.BrokenKeyLoads` gives a key for which they do not.
- Publishing is at most once only as long as answers arrive. An issue whose creation answered with a timeout or an
  unreadable body counts as failed and is created again by the next run (`Publishing.AtMostOnce`,
  `Publishing.SecondIssueIff`, `Publishing.LostThenCreated`).
- Minting a spec id is not unconditionally fresh: the number wraps around at 64 bits
  (`Boards.MintedIsFresh`, `Boards.MintedMayCollide`).

## Model

| member | source | states |
|---|---|---|
| `Paths.RejectionIsWhereTheWalkEnds` | delivery_changes.go:229-259 | The verdict on a path is decided by where walking it segment by segment ends, each way: refused as escaping iff the walk goes above its start and does not end exactly one directory above it, as the root iff it ends at the start or exactly one directory above it, as metadata or workflow iff it ends there, and accepted otherwise |
| `Paths.SpellingRefused` | delivery_changes.go:230-242 | Blank paths, null bytes, backslashes and a leading slash are refused each as such, and the first that applies is the verdict; both ways, on the text itself |
| `Paths.CleanIsRoam` | delivery_changes.go:243 | The cleaned segments spell out the place where any path ends: as many `..` as it lies above the start, then the names |
| `Paths.ClimbReadsAsRoot` | delivery_changes.go:244-246 | For any name, the path into it and two up is refused as the root although its walk leaves the start |
| `Paths.CleanIsWalk` | delivery_changes.go:243-251 | The lexical cleaner, a stack machine, holds exactly the walk's position as long as the walk stays inside, and a leading `..` ever after once it has left |
| `Paths.CleanIdempotent` | delivery_changes.go:243 | Cleaning a cleaned path changes nothing, for every text |
| `Paths.AcceptedCleansToNames` | delivery_changes.go:229-259 | An accepted path cleans to a non-empty list of names, none empty, `.` or `..` |
| `Paths.AcceptedStaysWithinRoot` | delivery_changes.go:308-313 | The second check cannot fail on an accepted path, whatever the root, although it looks at the untrimmed path and the first check at the trimmed one |
| `Paths.AcceptedPlace` | delivery_changes.go:308-313 | An accepted path, as it was given and is written, ends where its own walk ends: below the start, at a non-empty list of names, and never in the repository's metadata |
| `Paths.WrittenBelowWorkflowsIff` | delivery_changes.go:230-256 | That place lies below the workflow directory iff the path leads to that directory or below and its last segment is nothing, `.` or `..` but for blanks behind it; never when the path has no surrounding blanks |
| `Paths.BlankInWorkflows` | delivery_changes.go:230-256 | An example: the workflow directory, a slash and a blank |
| `Paths.RelativeBelow` | delivery_changes.go:351-360 | The path of something below a directory, relative to it, is what was appended |
| `Paths.WithinRootIff` | delivery_changes.go:350-360 | The second check holds iff the target lies strictly below the root and its first name from there is not `..` |
| `Paths.JoinIsRoam` | delivery_changes.go:308-309 | Joining a path to a root gives the place where the path ends from there, and never climbs above the top |
| `ChangeSets.NormalizeChangeSet` | delivery_changes.go:103-123 | The loop computes the sieve the next two rows are about |
| `ChangeSets.NormalizeSpec` | delivery_changes.go:103-123 | What is kept is trimmed, non-blank, duplicate-free and not empty; kept and dropped account for every entry; and for each path exactly the first usable entry is kept |
| `ChangeSets.NormalizeKeepsFirst` | delivery_changes.go:103-123 | By the fields: kept are, in order and trimmed, exactly the entries that delete, patch or give contents and are the first such for their non-blank path; dropped, in order, exactly the others, each for the right reason |
| `ChangeSets.NormalizedPlace` | delivery_changes.go:103-123 | An accepted entry of a normalised list is written neither in the metadata nor below the workflow directory |
| `ChangeSets.NormalizeFixed` | delivery_changes.go:103-123 | Normalised lists are fixed points and drop nothing |
| `ChangeSets.MergeFiles` | delivery_changes.go:131-166 | The two loops over `byPath` and `order` compute the merge of the next rows |
| `ChangeSets.Emit` | delivery_changes.go:161-164 | The final loop writes one entry per path, in order |
| `ChangeSets.MergeEntry` | delivery_changes.go:131-166 | For every path the merged list holds the delta's last entry, or else the base's |
| `ChangeSets.MergeShape` | delivery_changes.go:131-166 | Base order is kept in front, the path set is the union, and a duplicate-free base gives a duplicate-free result |
| `ChangeSets.MergeAssociative` | delivery_changes.go:131-166 | Merging is associative, for any lists, duplicates included |
| `ChangeSets.MergeEmptyDelta` | delivery_changes.go:131-166 | The empty delta is an identity iff all entries for one path are equal |
| `ChangeSets.MergeIntoEmpty` | delivery_changes.go:131-166 | The empty base is an identity for duplicate-free lists |
| `ChangeSets.MergeIdempotent` | delivery_changes.go:131-166 | Merging a list into itself is merging nothing into it, hence changes nothing when it is duplicate-free |
| `Sessions.MergeChangeSet` | delivery_changes.go:131-166 | The whole record: its header fields field by field, and its files |
| `Sessions.HeaderByFields` | delivery_changes.go:131-160 | Each header field of the merged record: the delta's where given, else the base's |
| `Sessions.RefusalsLeaveTheTree` | delivery_changes.go:272-305 | Every outcome but success and a failed entry leaves the tree as it was; which refusal it is follows from the count, the paths and the bytes, both ways for the limits |
| `Sessions.ApplyVerdict` | delivery_changes.go:272-348 | The verdict in the order of the checks, on count, paths and bytes; a set that passes is written, and a success that applied nothing reads as no changes |
| `Sessions.BytesAdd` | delivery_changes.go:290-300 | The size of a set adds up the lengths of patches and contents |
| `Sessions.EntryByFields` | delivery_changes.go:316-341 | What an accepted entry does, by its fields: a deletion leaves no file and is skipped where there was none; else a patch leaves what the tool makes of its text, with a line break at the end, or fails and changes nothing; else contents are written as they are; and its report |
| `Sessions.OutsideRefused` | delivery_changes.go:308-313 | An entry whose place is not below the root is refused as unsafe and changes nothing |
| `Sessions.FailureLeavesThePrefix` | delivery_changes.go:307-342 | A failing write phase leaves exactly the effect of the entries before the first failing one |
| `Sessions.ReportsAccount` | delivery_changes.go:307-347 | On success each entry that asks for a change is reported once, in order, applied or skipped; the reports cover all entries iff none is empty |
| `Sessions.OthersUntouched` | delivery_changes.go:307-347 | Paths that are no entry's cleaned path keep their contents, whatever the outcome |
| `Sessions.WriteAllEffect` | delivery_changes.go:307-347 | Any acceptable entries all succeed iff, file by file, their patches apply one after another to the original contents, and then the tree holds what each file's entries make of its original contents |
| `Sessions.AnyRoot` | delivery_changes.go:307-347 | What an acceptable set does to a tree does not depend on where the workspace lies |
| `Sessions.MergeReplaysExactly` | model_apply.go:173-204 | One step, exactly and for any acceptable paths: the merged record replays the session iff, for each file, it makes of the original contents what the record followed by the delta makes of them |
| `Sessions.MergeReplaysIff` | model_apply.go:173-204 | Where no rewritten file is spelled in two ways, that is so iff each delta entry over a recorded key makes the same of the original and of the session's contents |
| `Sessions.OvertakenRewriteIff` | delivery_changes.go:131-166 | Where another spelling stands behind the rewritten key, and no patch among them, the merged record replays the session iff the rewrite leaves of the file what the other entry did |
| `Sessions.RunReplays` | model_apply.go:173-204 | After any session of any length whose recorded steps patch no recorded key and rewrite no file that is spelled in two ways, and whose failed write phases wrote nothing, the record replays the session |
| `Sessions.SessionReplay` | delivery_changes.go:131-166 | Delivering the merged record once onto the original tree, in any clone and within the delivery limits, gives the tree the session reached step by step; "no changes" is reported only where the session's tree is the original |
| `Sessions.RepatchBreaksReplay` | delivery_changes.go:138-143 | Why patches over recorded paths are excluded: writing any new file and patching it leaves a record that does not apply to the original tree |
| `Sessions.SpellingsBreakReplay` | delivery_changes.go:131-166 | Why rewriting a file spelled in two ways is excluded: for any file and any second spelling, after both were written the record replays, but once the first is rewritten it gives the second one's text |
| `Sessions.TwoSpellings` | delivery_changes.go:229-259 | `a` and `./a` are such spellings |
| `Sessions.UnrecordedHarmlessIff` | model_apply.go:185-190 | A step that is not recorded does no harm to the replay iff it left the tree as it was |
| `Sessions.NotedMerges` | model_apply.go:173-204 | Without a session workspace nothing is written, and the record holds for each path the first usable entry produced for it, else what it held |
| `Sessions.FailedWriteBreaksReplay` | model_apply.go:185-190 | A failed write phase can do harm: what was written before the failure stays in the session, is not recorded, and the record no longer replays the session |
| `Sessions.CheckPaths` | delivery_changes.go:290-300 | The validation loop accepts iff every path is acceptable and then has counted all bytes |
| `Sessions.Workspace.WriteEntry` | delivery_changes.go:307-341 | One round of the write loop, on the tree in place |
| `Sessions.Workspace.WriteFiles` | delivery_changes.go:307-342 | The write loop, stopping at the first failure |
| `Sessions.Workspace.ApplyChangeSet` | delivery_changes.go:272-348 | The staged apply as a whole: limits, paths, bytes, writes, and "no changes" when nothing was applied |
| `Sessions.Workspace.PutChangeSetMerged` | delivery_changes.go:169-175 | The stored record becomes the merge of what was stored, if anything, with the delta |
| `Sessions.Workspace.ClearChangeSet` | delivery_changes.go:212-220 | The record reads as empty afterwards |
| `Sessions.Workspace.RecordImplementation` | model_apply.go:173-204 | With a session workspace, the step that the replay rows speak of: nothing usable changes nothing, a failed apply is not recorded, a success is merged; without one, usable changes are merged without being applied |
| `Plans.CountDone` | job_runner.go:1294-1300 | The inner loop: the finished subtasks of one phase |
| `Plans.CountPlanSubtasks` | job_runner.go:1292-1302 | Counts all subtasks, and those completed or done |
| `Plans.CountOpen` | job_runner.go:663-669 | The inner loop: the open subtasks of one phase |
| `Plans.CountPendingSubtasks` | job_runner.go:661-671 | Counts the subtasks that are pending, blank or in progress |
| `Plans.CountsBounded` | job_runner.go:1292-1302 | The two counts never overlap; every extreme is characterised item by item |
| `Plans.CountsByStatus` | job_runner.go:1294-1300 | Item by item: completed and done ones are counted as finished, pending, blank and in-progress ones as open |
| `Plans.HasPendingCodingSubtasks` | task_workspace.go:88-103 | True iff some coding subtask is neither completed nor stuck, so also for done, failed and unknown statuses |
| `Plans.AllCodingSubtasksComplete` | task_workspace.go:105-119 | True iff there is a coding subtask and all of them are completed |
| `Plans.MarkFirstOpen` | job_runner.go:396-411 | The nested loop that marks a subtask, with the id it reports |
| `Plans.MarkFirstFlat` | job_runner.go:396-411 | In document order exactly the first open subtask changes, and only its status; phases and ids stay |
| `Plans.MarkFirstByStatus` | job_runner.go:396-411 | The first subtask that is pending, blank or in progress is the one that changes and gives its id; without one nothing changes |
| `Plans.ResetPhase` | job_runner.go:797-804 | One phase of the recover loop |
| `Plans.ResetSubtasks` | job_runner.go:795-805 | The recover loop, and whether it changed anything |
| `Plans.RecoveredFlat` | job_runner.go:795-805 | Recovery changes statuses only, item by item, and keeps the plan's shape |
| `Plans.RecoveredByStatus` | job_runner.go:795-805 | Exactly the stuck, failed and in-progress subtasks go to pending |
| `Plans.RecoveryChanges` | job_runner.go:795-810 | Recovery changes a plan iff one of its subtasks is stuck, failed or in progress |
| `Plans.CompletePhase` | job_runner.go:1233-1239 | One phase of the skip loop |
| `Plans.CompleteBefore` | job_runner.go:1219-1241 | The skip loop: every subtask of a phase numbered below the target is finished, an unnumbered phase counting by its place, all other phases are as they were; and whether the target exists |
| `Plans.SkippedFlat` | job_runner.go:1219-1241 | Skipping completes unfinished subtasks and changes nothing else |
| `Plans.SkipByNumber` | job_runner.go:1219-1241 | Subtask by subtask: in a phase numbered below the target, an unnumbered one counting by its place, those not completed or done become completed; all else stays |
| `Plans.HasPhaseNumbered` | job_runner.go:1219-1241 | The target exists iff some phase has that number |
| `TaskJobs.TaskFile.constructor` | store.go:567-606 | A new task: empty plan, zero progress, backlog |
| `TaskJobs.TaskFile.PutRecount` | job_runner.go:329-341 | The progress record is rewritten from a recount of the stored plan |
| `TaskJobs.TaskFile.RunPlanning` | job_runner.go:262-355 | A planning job: the model's plan or the default one, or one appended phase for a follow-up; counters and column to match |
| `TaskJobs.ModelPlanStored` | model_apply.go:80-111 | A model's plan with phases is stored phase for phase, with its own status texts where it has any |
| `TaskJobs.FollowUpAppends` | job_runner.go:310-324 | A built-in follow-up keeps the phases in front and appends one coding phase with the next number and one pending subtask, named after it |
| `TaskJobs.DefaultPlanStored` | job_runner.go:276-309 | In every other case the task gets a finished design phase, a coding and a review phase, with named subtasks that are pending; one for coding by the model's planner (model_apply.go:83-98), two by the built-in one |
| `TaskJobs.DefaultPlanNames` | job_runner.go:276-309 | The ids of those subtasks |
| `TaskJobs.PlanningColumn` | job_runner.go:329-351 | Whatever is planned, the task goes to human review iff coding needs one, else to the queue; marks cleared, counters recounted, approval kept |
| `TaskJobs.TaskFile.RunImplementation` | job_runner.go:363-459 | One implementation job: refused, nothing open, or the first open subtask completed, with counters and column |
| `TaskJobs.ImplementResult` | job_runner.go:385-459 | Of a job that is not refused: nothing named to do sends the task to review; else the texts, the recount, the kept pause and stuck mark, and review iff every subtask is completed or done |
| `TaskJobs.TaskFile.RunMarkStuck` | job_runner.go:846-888 | The first open subtask becomes stuck and is recorded, without a recount |
| `TaskJobs.TaskFile.MarkJobCancelledStuck` | job_runner.go:891-937 | Cancelling a job sticks the next open subtask |
| `TaskJobs.StuckResult` | job_runner.go:846-937 | A stuck mark and a cancel stick one subtask, record it, stop the running mark and leave the counters; only the mark moves the task |
| `TaskJobs.TaskFile.RunRecover` | job_runner.go:786-844 | Stuck, failed and in-progress subtasks go back to pending, the stuck mark is cleared |
| `TaskJobs.RecoverResult` | job_runner.go:786-844 | Nothing happens unless a subtask is stuck, failed or in progress; else marks cleared, counters recounted, task in progress |
| `TaskJobs.TaskFile.RunSkipToPhase` | job_runner.go:1207-1290 | Phases before the target are completed, the pause and the stuck mark are cleared |
| `TaskJobs.SkipResult` | job_runner.go:1207-1290 | Nothing happens for a target below 1 or that no phase has; else marks cleared, counters recounted |
| `TaskJobs.SkipColumnRule` | job_runner.go:1265-1280 | The last design or review phase with the target number decides the column; without one the task is in progress |
| `TaskJobs.TaskFile.RunPause` | job_runner.go:738-765 | Pausing sets the flag and stops the running mark |
| `TaskJobs.TaskFile.RunResume` | job_runner.go:767-784 | Resuming clears the flag |
| `TaskJobs.TaskFile.ApproveForCoding` | store.go:775-796 | Only a task in human review is approved, and it moves to the queue |
| `Drains.DrainOne` | job_runner.go:396-411 | After `k` completions the next one hits the item with `k` open ones before it, and gives the state after `k + 1` |
| `Drains.NameOfRank` | job_runner.go:650-659 | That item's id is blank exactly when the plan allows no further completion: a blank id reads as "none pending" |
| `Drains.DrainableBound` | job_runner.go:650-671 | The plan allows as many completions as it has open subtasks iff each open one has an id |
| `Drains.DrainedCounts` | job_runner.go:661-671 | Completions move subtasks from open to finished one for one |
| `Drains.StepDrains` | job_runner.go:396-443 | On a plan with `k` completions an implementation step makes the next one, in document order, and sends the task to review iff that finishes the plan |
| `Drains.StepsEnd` | job_runner.go:650-659 | When the plan allows no more completions, nothing reads as open |
| `Pipelines.FirstPendingSubtaskID` | job_runner.go:650-659 | The id of the first open subtask in document order, blank if none |
| `Pipelines.SetPipelineProgress` | job_runner.go:481-506 | The pipeline's progress update is a recount that keeps pause and stuck mark |
| `Pipelines.CancelledOrPaused` | job_runner.go:673-683 | Asked after any operator event: blocked iff cancelled or paused |
| `Pipelines.DrainPending` | job_runner.go:565-583 | The bounded loop, on the stored records, is the drain of the rows below |
| `Pipelines.StepBound` | job_runner.go:555-563 | The loop's bound is 8 more than what is pending, at least 16 and at most 500 |
| `Pipelines.RoundRefused` | job_runner.go:565-583 | A round on a task that waits for approval ends the loop as refused |
| `Pipelines.PipelineStops` | job_runner.go:472-620 | At its end a pipeline no longer runs; it approves by itself only a task that waits in human review without an approval it needs |
| `Pipelines.RunCodingStage` | job_runner.go:555-612 | Step bound, drain, the check for what is left, and the decision to park |
| `Pipelines.RunPipeline` | job_runner.go:472-620 | The whole job on the stored records, planning, automatic approval and the deferred clean-up included |
| `Pipelines.RoundAdvances` | job_runner.go:565-583 | One undisturbed round completes exactly the next open subtask in document order, whatever the progress record said |
| `Pipelines.LoopEnds` | job_runner.go:565-583 | Undisturbed, the loop makes as many completions as its bound and the plan allow, and stops by itself |
| `Pipelines.LoopInterrupted` | job_runner.go:565-583 | Disturbed first at round `k`, the loop stops there with exactly the first `k` open subtasks completed |
| `Pipelines.PipelineDrains` | job_runner.go:472-620 | A pipeline that no check finds disturbed makes min(n, 500) steps where n counts the open subtasks before the first nameless one; it parks the task in review, at 100 percent, iff the plan is not empty, at most 500 subtasks were open and each is finished or open with an id; otherwise it reports the job incomplete |
| `Pipelines.PipelineInterrupted` | job_runner.go:530-595 | Whichever check is the first to find a pause or a cancel, after planning, before any round or after the loop, the job ends interrupted there with exactly the steps so far completed, and on a cancel the next open subtask stuck |
| `Pipelines.SomeCheckFirst` | job_runner.go:530-595 | A pipeline that some check finds disturbed has such a first check, so the previous row covers all of them |
| `Pipelines.InterruptedIff` | job_runner.go:530-595 | The job ends interrupted iff some check that is asked finds an event |
| `SelfChains.PostImplementationJob` | impl_session.go:10-40 | Chains iff coding is left; parks in review iff all coding is complete; else stops |
| `SelfChains.ParksIffCoded` | impl_session.go:10-40 | Parked iff not paused, with a coding subtask, and all of those completed; chained iff not paused and one of them is neither completed nor stuck |
| `SelfChains.SessionStopsIff` | impl_session.go:10-40 | The self-chaining session stops after finitely many jobs iff each coding subtask is completed, stuck, or open before the first nameless one; otherwise it chains jobs for ever |
| `SelfChains.SessionOutcome` | autopilot.go:89-102 | It then stops within one job per open subtask, in review iff every coding subtask is completed, that is iff none was stuck |
| `Histories.PercentMeaning` | job_runner.go:1304-1309 | A correct percentage is the finished part in hundredths, rounded down; it lies between 0 and 100 and is 100 iff done equals total and total is positive |
| `Histories.ExecSafe` | job_runner.go:141-237 | Every job action keeps the progress record equal to a recount and its stuck id that of a stuck subtask; every action that does not plan keeps phases and ids and undoes no finished subtask |
| `Histories.RunSound` | job_runner.go:141-237 | The same at every action boundary of every run of actions |
| `Histories.RunPreserves` | job_runner.go:141-237 | Over any run without planning, shape and ids stay and what was finished stays finished |
| `Histories.PausedFinishesNothing` | job_runner.go:718-736 | While a task is paused only a skip finishes a subtask, and a skip that changes anything clears the pause |
| `Histories.LifeSound` | job_runner.go:141-237 | From its creation on, at every action boundary, a task's progress equals a recount, its percentage lies between 0 and 100 and is 100 iff done equals total and total is positive, and a recorded stuck subtask is stuck |
| `Histories.RecoverUndoesStuck` | job_runner.go:786-888 | Recovering after a stuck mark puts that subtask back to pending and every other one where recovery alone puts it, recounts, and clears the stuck mark and any pause |
| `Histories.ResumeUndoesPause` | job_runner.go:738-784 | Resuming undoes a pause except for the running mark; in between no planning, implementation or pipeline job does anything |
| `Histories.ApprovalGate` | job_runner.go:363-383 | An implementation job is refused iff the plan is empty or the task waits in human review without an approval; then nothing changes, and approving opens the gate |
| `Slugs.SanitizeBranch` | delivery_git.go:111-136 | The character loop with its previous-dash flag computes the function of the next rows |
| `Slugs.AlnumCodes` | delivery_git.go:117 | The characters of a name are the lower-case letters and the digits of ASCII |
| `Text.SpaceChars` | delivery_git.go:115 | The blanks that trimming takes away are those of ASCII |
| `Slugs.BranchNormalForm` | delivery_git.go:111-136 | At most 60 characters of `[a-z0-9-]`, no leading, trailing or doubled dash, also after the cut; empty iff the text has no ASCII letter or digit |
| `Slugs.BranchIdempotent` | delivery_git.go:111-136 | Names in normal form are fixed points, so sanitizing is idempotent |
| `Slugs.BranchIsWords` | delivery_git.go:111-136 | A branch segment is the text's longest runs of letters and digits, in order and lower-cased, joined by single dashes and cut to 60 characters, not behind a dash |
| `Slugs.DeliveryBranchNamed` | delivery_git.go:141-154 | The branch is the requested name in normal form if that leaves anything, else a non-empty segment in normal form under the prefix; never empty |
| `Slugs.RequestHonoured` | delivery_git.go:141-154 | A requested name in normal form is used as it is |
| `Slugs.SlugNormalForm` | store.go:533-545 | Slugs are normal, 1 to 48 characters, and slugging is idempotent |
| `Slugs.SlugIsWords` | store.go:533-545 | The same for slugs, cut to 48 characters, and `task` where there is no such run |
| `Boards.NextSpecID` | store.go:547-565 | The scan over the directory names mints the id of the next rows |
| `Boards.MaxNumberIs` | store.go:552-563 | The number that is counted up is 0 or the largest that a directory name starts with |
| `Boards.ScanReads` | store.go:558-559 | A name of blanks, a sign, digits and a dash is read as that number, where it fits 64 bits |
| `Boards.ScanShape` | store.go:558-559 | No other name is read |
| `Boards.PrintedNumber` | store.go:564 | The printed number is a sign where negative and its digits, padded to three characters, and no more |
| `Boards.ScanMinted` | store.go:547-565 | Parsing a printed spec id gives its number back, padded or not |
| `Boards.MintedIsFresh` | store.go:547-565 | The minted id is in use iff a directory carries the largest 64-bit number and the wrapped-around id is taken too; otherwise it carries the largest number plus one |
| `Boards.MintedMayCollide` | store.go:547-565 | Two directories for which the minted id is in use |
| `Boards.CreateIndexed` | store.go:567-628 | Creating a task keeps the board an exact index iff the minted id was not in use |
| `Boards.MoveIndexed` | store.go:703-752 | Moving keeps the index, for any target text and any id |
| `Boards.MoveArrives` | store.go:703-752 | A live task moved to the text of a column has that status and stands last in that column and nowhere else; the other tasks, entries, specs and approvals stay |
| `Boards.MoveRefused` | store.go:703-722 | Any other text or id changes nothing |
| `Boards.ApproveQueues` | store.go:775-796 | Approval takes a task from human review to the end of the queue and marks it, and does nothing to any other |
| `Boards.CreateAdds` | store.go:567-628 | Creation adds the task under the minted id, last in the backlog; all else stays |
| `Boards.DeleteIndexed` | store.go:754-772 | Deleting keeps the index |
| `Boards.DeleteRemoves` | store.go:754-772 | Deletion takes the id out of tasks, specs, approvals and every column; all else stays |
| `Columns.ParseColumnIff` | store.go:703-722 | Exactly the six status texts are read, each as its own column |
| `Boards.RunIndexed` | store.go:567-796 | After every run of fewer than 2^63 - 1 operations each live task stands exactly once on the board, in the column of its status, nothing else stands there, and the next id is not in use |
| `Boards.RemoveFrom` | store.go:723-735 | The filter loop takes out one id and keeps the order of the others |
| `Boards.ProjectStore.constructor` | models.go:118-124 | A new project: no tasks, an empty board |
| `Boards.ProjectStore.RunCreateTask` | store.go:567-628 | Task, directory and backlog entry are written |
| `Boards.ProjectStore.FillColumns` | store.go:611-619 | Missing columns are filled in |
| `Boards.ProjectStore.Unlist` | store.go:723-735 | The id leaves every column |
| `Boards.ProjectStore.RunMoveTask` | store.go:703-752 | Status and board are rewritten together; an unknown status or task changes nothing |
| `Boards.ProjectStore.RunDeleteTask` | store.go:754-772 | The task leaves the board and its directory, with its approval, is removed |
| `Boards.ProjectStore.RunApproveForCoding` | store.go:775-796 | A task in human review moves to the queue and is marked approved |
| `RoadmapPhases.MergeRoadmapPhases` | model_apply.go:511-607 | The merge as it runs, with its name maps, is the merge of the rows below |
| `RoadmapPhases.MergeMode` | model_apply.go:511-563 | Phases are replaced iff none is bound and some proposal is named, updated otherwise; without named proposals nothing changes |
| `RoadmapPhases.ReplaceByFields` | model_apply.go:524-559 | Replacing: in order one phase per proposal with a new name, made from its fields, under its own id, else that of the last existing phase of its name, else the next one drawn |
| `RoadmapPhases.UpdateByFields` | model_apply.go:565-606 | Updating: the existing phases and then one phase per proposal with a new name, made from its fields; of each name the last phase has, field by field, the last description, order and status proposed for it |
| `RoadmapPhases.ReplacePhases` | model_apply.go:524-562 | The replacing loop |
| `RoadmapPhases.IndexPhases` | model_apply.go:565-569 | The name index of the updating mode: the last phase of each name |
| `RoadmapPhases.UpdateRound` | model_apply.go:570-605 | One round of the updating loop: the phase of that name updated in place, or a new one appended and indexed |
| `RoadmapPhases.UpdatePhases` | model_apply.go:565-606 | The updating loop |
| `RoadmapPhases.MergeIdempotent` | model_apply.go:511-607 | Merging the same phases again changes nothing and draws no fresh id, in both modes and in the fall-through |
| `RoadmapPhases.BoundPhasesStay` | model_apply.go:565-606 | Once a phase is bound to a milestone, the existing phases stay in front with id, name, features and milestone |
| `RoadmapPhases.MergeKeepsNamesDistinct` | model_apply.go:511-607 | Names stay distinct up to case and surrounding blanks, and every proposed name is present |
| `RoadmapPhases.UpdateAgain` | model_apply.go:565-606 | The updating mode alone is idempotent, even where names are not distinct |
| `RoadmapPhases.ReplaceAgain` | model_apply.go:524-562 | Replacing once more by any front part of the same proposal gives what replacing by that part gave, without a fresh id |
| `RoadmapFeatures.ValidateRoadmapJSON` | roadmap_competitor.go:101-131 | Valid iff there are phases, all are named, and each feature that names a phase names an existing one |
| `RoadmapFeatures.TitlesOf` | model_apply.go:393-398 | The set of comparison keys is exactly that of the titles present |
| `RoadmapFeatures.FileUnder` | model_apply.go:461-466 | The feature is listed by the first phase with its phase id, and nowhere else |
| `RoadmapFeatures.IntakeRound` | model_apply.go:412-469 | One round of the intake loop: skipped, or filed, appended and its title remembered |
| `RoadmapFeatures.ApplyModelRoadmapFeatures` | model_apply.go:393-491 | The intake loop as it runs, with its title set, and the validity check after it |
| `RoadmapFeatures.FiledIsPhase` | model_apply.go:426-437 | A feature is always filed under an existing phase |
| `RoadmapFeatures.FiledUnderRight` | model_apply.go:426-437 | A feature is filed under the phase whose id it names, else the last one whose name it gives, up to case and trimming, else, or where that id is blank, the first |
| `RoadmapFeatures.TakeInAdds` | model_apply.go:393-469 | For any model output, the added features are in order exactly the proposals with a new title, each with its own id or the next one drawn, trimmed title, the phase of the previous row, and its priority and status or the defaults |
| `RoadmapFeatures.TakeInLists` | model_apply.go:461-466 | Each phase lists what it did and then the ids of the added features filed under it, in order; so an added feature is listed once |
| `RoadmapFeatures.IntakeKeeps` | model_apply.go:393-469 | For any model output the roadmap is valid afterwards iff it was before; old features stay in front, added titles equal no other title up to case and trimming, every added feature is listed by its phase, and every titled proposal is present |
| `RoadmapFeatures.IntakeIdempotent` | model_apply.go:393-469 | A second intake of the same output adds nothing and draws no id |
| `Publishing.ReadLists` | roadmap_publish.go:168-205 | Reading the stored list back gives the published map, in whatever order it was written |
| `Publishing.ReadsLastEntry` | roadmap_publish.go:168-205 | Of any stored list the last entry for each non-blank id is read, and nothing else |
| `Publishing.WriteRecord` | roadmap_publish.go:141-146 | The stored list is sorted by feature id and reads back as the map |
| `Publishing.RoadmapStore.CreateIssue` | peer.go:150-212 | A call is refused, lands, or lands with its answer lost, which the caller sees as an error like a refusal |
| `Publishing.RoadmapStore.PublishFeatures` | roadmap_publish.go:93-134 | The publish loop on the repository's issues, the map and the three counts |
| `Publishing.RoadmapStore.RunPublish` | roadmap_publish.go:45-147 | A run: refused on an empty or invalid roadmap, else all features in order, then the record is rewritten |
| `Publishing.PublishAllSpec` | roadmap_publish.go:93-134 | No issue lands for an id on record nor after an acknowledged one, the record grows by exactly the acknowledged ids, which are those counted as created, the three counts add up, and without failures nothing publishable is left |
| `Publishing.CountedAs` | roadmap_publish.go:93-134 | Of each feature: skipped without id or title or when on record, failed without an answer, created with one |
| `Publishing.EntryKeepsAnswer` | roadmap_publish.go:120-126 | A new entry holds the number and url that the peer answered for the feature of that id, and its title |
| `Publishing.RefusedRun` | roadmap_publish.go:65-75 | A roadmap without features or phases, with an unnamed phase or a dangling phase reference publishes nothing and changes nothing; any other is attempted |
| `Publishing.RunAccounts` | roadmap_publish.go:74-147 | Conservation for a whole run over the roadmap's own features |
| `Publishing.AttemptsInOrder` | roadmap_publish.go:80-88 | All features are attempted, by phase and then by id, and those level in both in the order of the roadmap |
| `Sorting.FirstDifference` | roadmap_publish.go:81-88 | That order of texts: behind a common front the first differing character decides |
| `Sorting.PrefixFirst` | roadmap_publish.go:81-88 | And a text comes before its continuations |
| `Publishing.AtMostOnce` | roadmap_publish.go:74-147 | Over any number of runs with any failures, and intakes and merges between them, an id gets at most one issue iff none lands for it after one whose answer was lost; never one when it was on record to begin with; and the record holds exactly the ids it began with and those acknowledged |
| `Publishing.AtMostOnceWithoutLoss` | roadmap_publish.go:74-147 | Where no answer is lost, each trimmed feature id gets at most one issue whatever else fails, and the record holds exactly the ids it began with and those that got one |
| `Publishing.LandsIff` | roadmap_publish.go:96-134 | In a run, an issue lands for a publishable feature iff its id is not on record and the peer does not refuse |
| `Publishing.SecondIssueIff` | roadmap_publish.go:96-134 | A further run gives an id its second issue iff one landed for it, it is not on record, and the peer does not refuse another |
| `Publishing.LostThenCreated` | roadmap_publish.go:117-134 | For any publishable feature, a run whose answer is lost and one that is answered give it two issues |
| `EnvFiles.WriteCandidateEnvLines` | job_model_config.go:144-172 | The loop writes the count and, per endpoint, its non-blank settings in order |
| `EnvFiles.WriteSettings` | job_model_config.go:151-169 | The lines of one endpoint |
| `Text.DropAt` | job_model_config.go:174-179 | Sanitizing takes out line breaks wherever they stand and moves nothing |
| `EnvFiles.LoadCandidate` | cmd/opm-runner/candidates.go:88-110 | One round of the reading loop: dropped without a key |
| `EnvFiles.LoadCandidates` | cmd/opm-runner/candidates.go:85-113 | The reading loop, over whatever lines are there and whatever the count says; a count that is negative, or above the 2^48 bytes that 160 each may take, makes the allocation panic |
| `EnvFiles.CountByShape` | cmd/opm-runner/candidates.go:86 | A count of an optional sign and digits is that number, held within 64 bits |
| `EnvFiles.CountOfOther` | cmd/opm-runner/candidates.go:86 | Any other text counts as 0 |
| `EnvFiles.TrimSlashesSpec` | cmd/opm-runner/candidates.go:102 | All slashes at the end of a base url are cut off, and nothing else |
| `EnvFiles.WordsByRuns` | cmd/opm-runner/candidates.go:106-108 | The arguments are the runs of non-blanks, in order |
| `EnvFiles.EnvKeyInjective` | job_model_config.go:150 | Numbered names are distinct for distinct numbers or settings |
| `EnvFiles.NoClash` | spawn_container.go:223-236 | No numbered name is the count's or an unnumbered one |
| `EnvFiles.GetenvUnique` | spawn_container.go:242 | Where all lines for a name agree, their order does not matter, so sorting is harmless |
| `EnvFiles.GetenvLast` | spawn_container.go:242 | Otherwise the last line that gives a variable wins |
| `EnvFiles.LinesComeBack` | spawn_container.go:212-245 | The sorted file splits back into the lines that were written iff no unnumbered value has a line break inside |
| `EnvFiles.FileParses` | spawn_container.go:212-245 | Whatever line breaks the unnumbered values have, all numbered lines come back whole, and nothing else gives a variable the runner asks for unless such a line break starts a line for one |
| `EnvFiles.OneLineForeign` | spawn_container.go:212-245 | In particular where they have none |
| `EnvFiles.SinglesComeBack` | spawn_container.go:223-241 | Where they have none, each unnumbered variable reads back as meant: the primary key under both its names, model, provider, base url and agent path, blank where not given |
| `EnvFiles.LoadedIff` | cmd/opm-runner/candidates.go:85-113 | From any lines the runner loads exactly the endpoints with a non-blank key iff the count can be allocated and, position by position, an endpoint with a key is within the count and reads as configured, and no other position within the count has a key |
| `EnvFiles.RoundTrip` | cmd/opm-runner/candidates.go:85-113 | From the written file the runner loads exactly the endpoints with a non-blank key, in order, with their original positions, each setting trimmed and rid of line breaks, iff the values agree in that sense; they do, for as many endpoints as can be allocated, unless a line break in an unnumbered value starts a line for a variable the runner asks for |
| `EnvFiles.BrokenKeyLoads` | spawn_container.go:223-226 | A primary key with a line break and then a line for the first endpoint's key breaks the round trip: that endpoint, without a key of its own, is loaded with the key in that line |
| `EnvFiles.UsableFromList` | cmd/opm-runner/candidates.go:85-113 | Every loaded candidate is the endpoint at its own position and has a key |
| `EnvFiles.UsableOrdered` | cmd/opm-runner/candidates.go:85-113 | Positions increase along the loaded list |
| `EnvFiles.UsableComplete` | cmd/opm-runner/candidates.go:85-113 | No endpoint with a key is lost |
| `EnvFiles.NormalizedSurvives` | job_model_config.go:144-179 | An endpoint with trimmed, lower-cased fields and blank-free arguments is loaded exactly as it was resolved |
| `Failover.CallWithFailover` | cmd/opm-runner/candidates.go:183-212 | The loop, with the list of calls it makes, is the walk of the rows below |
| `Failover.FirstDecisiveSettles` | cmd/opm-runner/candidates.go:183-212 | The first runnable endpoint that answers or fails without hope settles the outcome: it answers iff that one answers, gives up iff that one fails for good, and with none there is one record per endpoint, in order |
| `Failover.ReplyDecides` | cmd/opm-runner/candidates.go:126-212 | At the endpoint the walk reaches: it answers iff that one answers, and gives up there iff that one fails with one of the three stop phrases somewhere in its lower-cased message; every other failure, and every kind that cannot be driven, is passed over and recorded, with the mark of an exhausted quota where the message has a sign of one |
| `Failover.NobodyToCall` | cmd/opm-runner/candidates.go:184-186 | Without endpoints none is called, and the outcome says so |
| `Failover.QuotaPassedOver` | cmd/opm-runner/candidates.go:126-141 | A `429` of the first of two endpoints: the second one answers |
| `Failover.PromptGivenUp` | cmd/opm-runner/candidates.go:126-141 | An invalid prompt at the first of two: the walk gives up there |
| `Failover.CalledInOrder` | cmd/opm-runner/candidates.go:183-212 | Exactly the runnable endpoints with no decisive one before them are called, in order, each once |
| `Failover.AddedBehind` | cmd/opm-runner/candidates.go:183-212 | Endpoints added behind the list change nothing unless all before them failed |
| `Failover.AnswerFromConfig` | cmd/opm-runner/candidates.go:183-212 | From configuration to answer through the env file: the answer is a configured, keyed, runnable endpoint's, and every such endpoint configured before it was called and failed retryably |
| `JobChains.JobStore.CreateJobWithOrigin` | store.go:1100-1149 | The created job, or the refusal of a review action, and the record it leaves |
| `JobChains.NewJobFields` | store.go:1100-1131 | The created job field by field; refused iff the action is one of the two review actions, in any letter case; the pin is taken over iff complete and of the action's non-blank key, else all blank |
| `JobChains.AgentKeyTable` | agent_keys.go:32-53 | The agent keys of the seven actions with an AI phase, in any letter case; no other action has one |
| `JobChains.JobStore.RecordJobResolution` | job_model_config.go:85-112 | The resolution is written on the job and on the stored record, of which nothing else changes |
| `JobChains.ResolvedFields` | job_model_config.go:85-112 | The pin holds provider, model, source and scope of the answer and the key it was resolved for |
| `JobChains.SentByFields` | job_model_config.go:41-64 | What goes out by the job's fields: nothing without a key; a pin of that key with a model first; else the override unless it is blank |
| `JobChains.PinCarriedIff` | models.go:295-315 | A new job runs as its parent and carries the parent's pin iff that is complete and of the new job's own non-blank agent key; else it carries none |
| `JobChains.ChainIsolation` | job_model_config.go:41-64 | After any run of resolutions, records, pipeline steps and job creations, on current or outdated copies, every job runs as the root's organization and user, and what is sent for resolution is the root's own choice or a model resolved before under the very key it is sent for |
| `JobChains.ResolutionsMade` | job_model_config.go:85-112 | Each resolution the previous row speaks of was made in the run, for a job of that agent key |
| `JobChains.ChainKeepsModel` | store.go:1122-1131 | Once the first job of a chain has a model and a provider, every later job of the same action asks for that very model, whatever would be chosen by then |
| `JobChains.OverrideSentOnIff` | job_model_config.go:41-64 | A created job sends its parent's override on iff it has an AI phase and no pin in force of another model, and it has a pin iff the parent's is complete and of the created job's own key |
| `JobChains.OverrideCrossesPhases` | models.go:295-315 | Whatever a planning job resolved to, the implementation job it creates asks for the planning job's override |

## Left out

- HTTP handlers, authentication, tenant scoping, peer clients and token minting: network plumbing.
- Git, docker and file I/O, with their errors: the stores are in memory, writing a file succeeds, and the final
  write of a publish run is taken to succeed; an issue that is created but not acknowledged is modelled.
- Directory and file conflicts, symbolic links and patches that name several files: the tree is flat and a patch
  acts on the file its entry names.
- Unicode: letter case and blanks are those of ASCII.
- Interleavings inside one job: actions are atomic, so a job's whole-record writes overwriting a concurrent cancel
  or a recorded resolution are seen only in `JobChains`, where outdated copies stay in play.
- Logs, messages, timestamps, run ids, the change set's note, and the action and phase names shown in the progress
  record: text only.
- Plan fields other than the statuses, phases and subtask ids, and feature fields that are copied as they are.
- Actions without an effect on plan or progress: changelog, ideation, the discovery and competitor steps.
- Replacing the whole board or the whole roadmap by a client, and the legacy `ai_review` column: such a request may
  break the index or erase the publish record.
- Prompts, context packs, the HTTP status tables and the issue-state map: finite tables.
- The redaction and shortening of error texts in failover attempts.
- The switch that turns automatic chaining off: it is modelled as on.
- RoadmapFeatures.ApplyModelRoadmapFeatures: starts from a roadmap with phases; without any, the code first
  bootstraps discovery or gives up (model_apply.go:376-391).
- Sessions.RunReplays: the condition on a whole run is sufficient; the exact one is given for one step, since a
  later step may repair what an earlier one broke. It speaks of sessions with a workspace; without one there is no
  session tree to replay.
- EnvFiles.LoadCandidates: running out of memory for a list that may be allocated is not modelled.
- Boards.RunIndexed: edits that keep a task's status do not touch the board and are not steps of the model.
- JobChains.ChainKeepsModel: assumes that the resolver answers an override with the model that was asked for.
