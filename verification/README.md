# j: a verification model

This project models the core of `j`, a command-line tool that drives a task through planner, worker and verifier
agents, and proves properties of that model in Dafny. `dafny verify dfyconfig.toml` checks all of it.

## What is modelled

**The task lifecycle.** A task row moves along the edge table of `internal/store/tasks/fsm.go` (`Fsm`). `TaskRow` has the
row, the store whose writes may fail, and the one path every transition takes. `Lifecycle` has the three lifecycle
objects as classes; each write is specified by a function on rows. `TaskRuns` puts them into a state machine of any
number of processes holding row copies of any age, and proves what every run keeps: the timestamps of a stopped row name
the phase that stopped it, and the done time is set exactly on completed rows. `Watch` is what open task lists may do
between one process's write and another's read; `Continue` says which begin `tasks continue` leads to and exactly when it
is legal; `Witnesses` has the concrete runs that go wrong. `FinishOnce`, `FixLoop`, `Orchestrator` and `Reap` cover any call
sequence on one object, the verifier/worker fix loop, one orchestrated run and the reaper.

**The per-task lock.** `FlockRuns` is the protocol at the level of system calls: open file descriptions, descriptor
numbers that are reused, a record written separately from the kernel lock, probes, takeovers, crashes. `LockFile` has the
lock object and its callers as classes and methods, with arbitrary interference between any two of their calls; its world
keeps the run of system calls, and `LockTrace` says from that run when a call got the lock.

**The code-review pipeline.** `PrFetch` drains paged connections, `PrItems` builds the reply index and flattens the
feedback, `PrFeedback` says from the comments' own fields what that feedback is, `CodeReview` validates what the planner
wrote back, `Rounds` allocates round directories.

**Small loops.** `Porcelain` (the worktree list parser), `Slug`, `TaskSort` over `StableSort`, `TitlePrefix`, and
`DrainLog` (the goroutines that copy a child's output into the log). `Text` and `Common` hold shared helpers.

## Conventions

- The outside world is a parameter: agent turns and verdicts, file presence, service answers, and an `io` flag for each
  write. Clock readings strictly increase. An error value is a `Result`, an `Option` or a flag.
- A method that changes state is proved against a function on values; the laws are lemmas about that function, and pin it
  field by field or on the inputs' own fields, without its name.
- A begin without an edge still edits the memory copy, and a later session record writes it. The runs include such begins
  unless the row is completed or was stopped by that very phase; `Continue.LostBegin*` say exactly what those break.

## Findings

Where a promise fails, the model keeps the code and the exact condition is proved.

- The dispatcher holds no lock between its resume write and the child's read. With other processes only reading the row
  and reaping what they read in between, the child has no legal begin exactly when it finds the row at
  needs-clarification and the phase has no session (`Witnesses.LostResumeStrands`, `Witnesses.ReapStrandsChild`), or at
  work-done and the worker has one (`Witnesses.ReapStrandsWorker`). Reaps of older copies and begins of others may leave
  other rows; there the condition is by status and session alone (`Continue.ChildAfterAnything`).
- From help a continue fails exactly for a verify without a session, because the verify restart fires the begin event
  (`Witnesses.VerifyHelpStrands`). From plan-done a stored work session (`Witnesses.PlannedWithSession`), and from
  work-done a stored verify session (`Witnesses.WorkedWithVerifySession`), has no resume edge.
- A verify restart without an edge clears the end time that names the stopped phase (`Continue.LostBeginExample`).
- The reaper says `help` where a clean finish says planned, exactly when a planner artifact is missing
  (`Witnesses.MissingArtifact`).
- The reaper releases its probe before it writes, and writes the reap of the copy it read. The row invariants survive
  that, but the result is the reap of the row on disk exactly when the copy is still current: same status, and no
  difference beyond what the reap rewrites (`Watch.ReapOfDiskRow`). A begin in between can be overwritten
  (`Witnesses.ReapOverwritesBegin`).
- A takeover may read, and then signal, a process that is already gone: it reads another process's record exactly when
  the owner's flock found one and the owner has not truncated the file since (`FlockRuns.SeenNamesOwner`,
  `FlockRuns.StaleRecordSeen`).
- A from-work run from plan-done completes on an old work session without any work being recorded
  (`Orchestrator.OldSessionCompletes`).
- Only the verifier is guarded against open questions: after a planner's question a full run still hands the worker its
  turn, and completes the row exactly when an old work session resumes from it (`Orchestrator.QuestionedFullCompletes`).
- Fetching ends if and only if the chain of pages is finite (`PrFetch.CircleNeverEnds`).
- Round numbers wrap after the largest 64-bit number (`Rounds.LargestListed`), and `round-007` counts as 7 but is never
  resumed (`Rounds.ZeroPaddedNotResumed`).
- A clipped slug may end in a dash, and then the worktree name has a doubled one (`Slug.ClippedBehindWord`,
  `Slug.DoubledDash`).

Where code and documentation differ the code is followed: the diagram above the edge table omits edges the table has;
the comment on `slugify` trims edges but clipping comes after trimming; the comment on `SortTasks` calls four statuses
active where the code has six and leaves the verify end time out of its cascade; `RecordResumeSession` also writes on a
closed object.

## Model

| member | source | states |
|---|---|---|
| Fsm.TableIsEdge | internal/store/tasks/fsm.go:123-195 | the edge table, row by row, is the same relation as a description by event: a set of legal sources and one destination per event |
| Fsm.TableSize | internal/store/tasks/fsm.go:123-195 | the table has 68 rows, so it and the description have no row too many or too few |
| Fsm.Reentry | internal/store/tasks/fsm.go:174-195 | an ended or helpless row can restart or resume every phase and nothing else, a waiting row can only resume, a row without a status can only be planned |
| Fsm.Exits | internal/store/tasks/fsm.go:155-172 | a row at verifying is left by a verify's outcome only, only a pass completes, and no edge leads back to no status |
| Fsm.FirstMatch | internal/store/tasks/fsm.go:216-223 | the table scan finds a row for (status, event) or proves there is none |
| Fsm.Apply | internal/store/tasks/fsm.go:216-223 | the lookup returns the destination of the legal edge and an error for every other pair |
| TaskRow.AppliedStatus | internal/store/tasks/fsm.go:216-223 | an event moves the status along a legal edge and stamps the done time of a completion; it touches no other field |
| TaskRow.Store.PutTask | internal/store/tasks/task.go:122-145 | a row without id or status is refused; otherwise the write happens or fails as the I/O outcome says, touching that row only |
| TaskRow.StampTerminal | internal/store/tasks/apply_persist.go:69-73 | the done time is stamped on completion only |
| TaskRow.ApplyAndPersist | internal/store/tasks/apply_persist.go:21-35 | illegal edge: nothing changes; failed write: the caller still holds the moved row and nobody is told; success: the row told to observers is the row on disk |
| TaskRow.ApplyAndPersistWarn | internal/store/tasks/apply_persist.go:49-63 | a failed write is swallowed and observers are told anyway; only an illegal edge is reported, and it writes nothing |
| Lifecycle.BeginFrame | internal/lifecycle/plan.go:57-177 | field by field, what any begin does: its section gets the caller's agent or, on a resume, keeps the stored session, a begin time that is new or kept, and no end time unless adopted; of the rest only status, done time, log path and a missing worktree name can change |
| Lifecycle.FinishOutcome | internal/lifecycle/plan.go:239-255 | for every phase: error wins over clarification, which wins over the phase outcome; each terminal status has its exact condition |
| Lifecycle.FinishFields | internal/lifecycle/plan.go:219-255 | field by field, what a finish does: the phase's end time, status and done time of its event, the summary only when the planner neither erred nor asked, a pull request only when none was known; nothing else |
| Lifecycle.PhasesApart | internal/lifecycle/work.go:58-147 | begins and finishes leave the other phases' sections alone |
| Lifecycle.FinishedStatus | internal/lifecycle/verify.go:103-133 | a finish moves the row along its edge when there is one and leaves the status alone otherwise |
| Lifecycle.PlanLifecycle.NewPlanTask | internal/lifecycle/plan.go:57-80 | a new row goes from no status to planning and is written with its begin time |
| Lifecycle.PlanLifecycle.BeginPlanRestart | internal/lifecycle/plan.go:87-109 | restart: the memory row is the begun row even when the edge is illegal; disk and observers only change on a legal edge |
| Lifecycle.PlanLifecycle.BeginPlanResume | internal/lifecycle/plan.go:119-150 | resume: requires the edge (the program panics without it), keeps the stored session |
| Lifecycle.PlanLifecycle.BeginPlanExisting | internal/lifecycle/plan.go:156-177 | adopting a row already at planning fires no event |
| Lifecycle.PlanLifecycle.RecordAgentLog | internal/lifecycle/plan.go:186-193 | closes the object once, stamping and writing the log path |
| Lifecycle.PlanLifecycle.RecordResumeSession | internal/lifecycle/plan.go:203-209 | a non-empty id is stamped and written, closed or not |
| Lifecycle.PlanLifecycle.Finish | internal/lifecycle/plan.go:219-231 | first call: end time after every earlier reading, the finished row written along a legal edge, the begin-time summary kept on an error or a question; later calls change nothing |
| Lifecycle.PlanLifecycle.PickFinishEvent | internal/lifecycle/plan.go:239-255 | error, then clarification, then the setting; the summary is refreshed on the two planned outcomes and the row left as it is otherwise |
| Lifecycle.WorkLifecycle.NewWorkTask | internal/lifecycle/work.go:36-55 | a new work row passes through plan-done to working |
| Lifecycle.WorkLifecycle.BeginWorkRestart | internal/lifecycle/work.go:58-73 | restart with a fresh section; a missing worktree name is filled in |
| Lifecycle.WorkLifecycle.BeginWorkResume | internal/lifecycle/work.go:76-85 | resume keeping session and begin time |
| Lifecycle.WorkLifecycle.RecordAgentLog | internal/lifecycle/work.go:122-129 | closes the object once, stamping and writing the log path |
| Lifecycle.WorkLifecycle.RecordResumeSession | internal/lifecycle/work.go:110-116 | a non-empty id is stamped and written, closed or not |
| Lifecycle.WorkLifecycle.Finish | internal/lifecycle/work.go:137-147 | first call: the finished row, with a stored pull request kept and otherwise the detected one; later calls change nothing |
| Lifecycle.WorkLifecycle.DetectPullRequestURL | internal/lifecycle/work.go:162-174 | a stored URL is kept, otherwise the detected one is taken |
| Lifecycle.WorkLifecycle.PickFinishEvent | internal/lifecycle/work.go:152-160 | error, then clarification, then done |
| Lifecycle.VerifyLifecycle.BeginVerifyRestart | internal/lifecycle/verify.go:35-49 | the restart fires the verify-begin event, whose edges exclude failed, help and completed |
| Lifecycle.VerifyLifecycle.BeginVerifyResume | internal/lifecycle/verify.go:52-61 | resume keeping session and begin time |
| Lifecycle.VerifyLifecycle.RecordAgentLog | internal/lifecycle/verify.go:88-95 | closes the object once, stamping and writing the log path |
| Lifecycle.VerifyLifecycle.RecordResumeSession | internal/lifecycle/verify.go:78-84 | a non-empty id is stamped and written, closed or not |
| Lifecycle.VerifyLifecycle.Finish | internal/lifecycle/verify.go:103-112 | first call: the finished row, done time strictly after the end time on success; later calls change nothing |
| Lifecycle.VerifyLifecycle.PickFinishEvent | internal/lifecycle/verify.go:120-133 | error, then clarification, then the verdict |
| FinishOnce.FinishEdge | internal/lifecycle/plan.go:239-255 | a finish always has an edge from its own active status, and it leaves the active statuses |
| FinishOnce.ClosedStays | internal/lifecycle/work.go:122-147 | no call sequence changes the status or fires an event once the object is closed |
| FinishOnce.CallPlan | internal/lifecycle/plan.go:186-231 | each call on the planner's object does what the call sequences say, and observers hear exactly the events added |
| FinishOnce.CallWork | internal/lifecycle/work.go:110-147 | the same for the worker's object |
| FinishOnce.CallVerify | internal/lifecycle/verify.go:78-112 | the same for the verifier's object |
| FinishOnce.FirstCloserDecides | internal/lifecycle/plan.go:186-231 | over any call sequence after a legal begin at most one event fires: the first closing call decides, a finish leaves the active statuses for good, a log hand-off leaves the row active |
| LatestPhase.LatestEndAt | internal/cli/tasks/continue_dispatch.go:116-137 | the phase whose end time no other phase beats (ties to verify, then work); none when no phase ended |
| LatestPhase.FreshestIsLatest | internal/cli/tasks/continue_dispatch.go:116-137 | that phase is unique, so the function returns it whenever there is one |
| LatestPhase.ScanEndAt | internal/cli/tasks/continue_dispatch.go:116-137 | the scan over the three pairs returns the freshest phase |
| TaskRuns.StepKeeps | internal/store/tasks/apply_persist.go:49-63 | every step of every process, with writes that may fail, copies of any age, and begins without an edge on rows that are neither completed nor stopped by that phase, keeps the row invariant on every memory copy and on disk |
| TaskRuns.StepWrites | internal/store/tasks/apply_persist.go:49-63 | what each kind of step that writes leaves on disk: its row at the status the step is about, every other row as it was |
| TaskRuns.LostFinish | internal/lifecycle/verify.go:103-133 | the finish of an object whose begin had no edge has none either |
| TaskRuns.RunKeeps | internal/store/tasks/apply_persist.go:21-73 | the invariant holds after every run |
| TaskRuns.PhaseAttribution | internal/cli/tasks/continue_dispatch.go:99-137 | in every such run, on disk or in memory, a row at help or needs-clarification names exactly the phase whose finish or reap put it there |
| TaskRuns.DoneIffCompleted | internal/store/tasks/apply_persist.go:69-73 | in every such run the done time is set if and only if the row is completed |
| TaskRuns.StrictlyFreshest | internal/cli/tasks/continue_dispatch.go:99-112 | a phase that ended strictly last is the one the cascade returns |
| Continue.PickLegal | internal/agents/planner/run.go:176-188 | for each phase and stored session, the statuses from which the begin the child picks has an edge |
| Continue.ContinueBegins | internal/cli/tasks/continue_dispatch.go:81-217 | a continue leads to a legal begin exactly on the listed rows, the child reading what the dispatcher left or that row reaped: per status, the stored session, whether the dispatcher's write reached the disk, and the status found |
| Continue.ContinueNeverPanics | internal/lifecycle/plan.go:119-150 | with only reads and reaps between the dispatcher's write and the child's read, the child's begin does not reach the panic of the planner's resume |
| Continue.ClarificationNeverDeadEnds | internal/cli/tasks/continue_dispatch.go:192-217 | in every run a row at needs-clarification names the phase that asked and its resume event is legal; whatever processes read, reap what they read in between, and do to other rows before the child's read, its begin is legal exactly unless the row is then at needs-clarification without a session or at work-done with a work session; untouched, exactly if the resume was written or the phase has a session |
| Continue.ReapedBeforeRead | internal/cli/tasks/reap.go:30-97 | a reap between the resume and the child's read: the planner's begin is legal iff it has a session or no question is left, the worker's iff having a session and a question being left coincide |
| Continue.ChildAfterAnything | internal/agents/planner/run.go:176-188 | a corollary of PickLegal: whatever happened to the row before, reaps of older copies included, the child's begin is legal exactly by the status and session it reads |
| Watch.WatchKeeps | internal/cli/tasks/reap.go:14-47 | however long other processes read, reap what they read and act on other rows, the row on disk is the one that was there or that row reaped |
| Watch.AroundStatus | internal/cli/tasks/reap.go:49-97 | the statuses a resumed row can be found at when watchers may have reaped it |
| Watch.ReapOfDiskRow | internal/cli/tasks/reap.go:42-47 | in every run, what a reap leaves on disk is the reap of the row that was there if and only if the reaper's copy is still current: same status, and no difference beyond what the reap rewrites |
| Witnesses.LostResumeStrands | internal/cli/tasks/continue_dispatch.go:192-217 | a run to a waiting row without a session whose lost resume leaves the child without a legal begin |
| Witnesses.ReapStrandsChild | internal/cli/tasks/reap.go:30-81 | a run in which the resume is on disk, a watcher reaps the row back to needs-clarification, and the child has no legal begin |
| Witnesses.ReapStrandsWorker | internal/cli/tasks/reap.go:83-97 | once clarification.md is gone a reap leaves work-done, where the worker's session cannot be resumed |
| Witnesses.VerifyHelpStrands | internal/lifecycle/verify.go:35-49 | a run to a row at help after a verify without a session, whose restart has no edge |
| Witnesses.PlannedWithSession | internal/agents/worker/run.go:128-136 | a run to a planned row with a work session, which has no resume edge |
| Witnesses.WorkedWithVerifySession | internal/lifecycle/verify.go:52-61 | a run to a work-done row with a verify session, which has no resume edge |
| Continue.HelpResumes | internal/cli/tasks/continue_dispatch.go:81-93 | in every run a row at help resumes the phase that failed, legally unless that is a verify without a session |
| Continue.LostBeginAttribution | internal/lifecycle/verify.go:35-49 | after a restart without an edge followed by a session record, the row still names its stopper exactly under the stated condition |
| Continue.LostBeginDone | internal/lifecycle/work.go:58-73 | such a begin breaks the done-time rule exactly on completed rows |
| Continue.LostBeginExample | internal/lifecycle/verify.go:35-49 | a concrete row that a lost verify restart makes name the worker |
| Continue.DispatchPlanApprove | internal/cli/tasks/continue_dispatch.go:182-187 | approval moves the row to plan-done and launches the worker whether or not the write succeeded |
| Continue.DispatchByStatus | internal/cli/tasks/continue.go:134-166 | the dispatcher: which phase it launches for every status, advice exactly on rows being planned or worked on or ended, and writes on the two statuses it moves itself only |
| Continue.ContinueNeverLost | internal/cli/tasks/continue.go:134-166 | in every run a continue of a stored row is never unsupported and never without a phase: advice, the next phase, or exactly the phase that stopped the row |
| Continue.DispatchClarification | internal/cli/tasks/continue_dispatch.go:192-217 | fires the resume event of the phase that asked and launches that phase; without a phase nothing is written |
| Continue.LatestPhaseOf | internal/cli/tasks/continue_dispatch.go:99-112 | the freshest end time, else the latest stored session by phase order |
| FixLoop.ResultUnique | internal/agents/verifier/loop.go:19-46 | the agents' behaviour determines the loop's result |
| FixLoop.ErrorFreeTrace | internal/agents/verifier/loop.go:55-115 | an error-free run alternates V(FV)^k with k+1 <= N, every verdict before the last is FAIL, success iff the last is PASS, and exhaustion uses exactly N verifier and N-1 fix turns |
| FixLoop.ErrorEndsTrace | internal/agents/verifier/loop.go:55-165 | an error ends the trace at the erring turn, the first error of the run |
| FixLoop.TurnBudget | internal/agents/verifier/loop.go:19-46 | no run hands out more than N verifier turns |
| FixLoop.SucceedsIffPasses | internal/agents/verifier/loop.go:19-115 | the loop succeeds exactly on agents whose verdict is PASS at some turn within the limit, every earlier FAIL having been fixed |
| FixLoop.FailsIffErrs | internal/agents/verifier/loop.go:19-115 | the loop reports an error exactly on agents that err before they pass or run out of turns |
| FixLoop.RoundsShape | internal/agents/verifier/loop.go:146-187 | turn by turn: who acts, on which session, resuming or not |
| FixLoop.ResumesSession | internal/agents/verifier/loop.go:118-153 | over every run: each verifier turn is handed the given session whenever there is one, and otherwise none at first and then the one minted; it resumes exactly after the first turn |
| FixLoop.ResumesMinted | internal/coding-agents/resume.go:131-150 | all turns but the first resume the session the row ends up with |
| FixLoop.RunVerifyLoop | internal/agents/verifier/loop.go:19-46 | the loop returns that result, and stamps the session seen during the first turn exactly when none was given, that turn started and an id was seen; otherwise row and store are untouched |
| FixLoop.RunIteration | internal/agents/verifier/loop.go:55-115 | one iteration: turns handed out, outcome and error for each way the turns can go |
| FixLoop.RunVerify | internal/agents/verifier/agent.go:129-154 | a whole verify run: begin, loop, one finish; the row is exactly that begin, stamped when a session was minted, and finished; later turns resume its session, at most N or by default 3 turns are handed out, and without an edge the status stays |
| Orchestrator.BeginPlanLifecycle | internal/agents/planner/run.go:176-188 | resume, adopt or restart by session and status; the panic case writes nothing |
| Orchestrator.RunPlanTurn | internal/agents/planner/run.go:59-109 | the turn's session record and single finish, folded into one account of the row |
| Orchestrator.RunPlanner | internal/agents/planner/run.go:42-109 | the planner sub-agent: resulting status, sessions and result for every outcome, exactly the row of its begin, session record and finish, and no other section or row touched |
| Orchestrator.PlannerRow | internal/agents/planner/run.go:59-109 | the planner's row by field: derived summary unless it erred or asked, status by error, question and approval |
| Orchestrator.BeginWorkLifecycle | internal/agents/worker/run.go:128-136 | resume by stored session, otherwise restart |
| Orchestrator.RunWorkTurn | internal/agents/worker/run.go:138-190 | the turn's session record and single finish, folded into one account of the row |
| Orchestrator.RunWorker | internal/agents/worker/run.go:56-190 | the worker sub-agent likewise; a user abort counts as success |
| Orchestrator.WorkerRow | internal/agents/worker/run.go:138-190 | the worker's row by field: a known pull request kept and otherwise the one found, worktree name, status by error and question |
| Orchestrator.RunVerifyResume | internal/agents/verifier/resume.go:118-159 | a stored verify session gets one resumed turn and the finish it calls for |
| Orchestrator.RunVerifier | internal/agents/verifier/agent.go:107-154 | picks the resumed turn or the fix loop and reports its error |
| Orchestrator.GuardRun | internal/lifecycle/orchestrator/verify_guard.go:32-67 | a row at needs-clarification gets no verifier turn and no write; otherwise the result is what the agents make of it |
| Orchestrator.FinaliseVerifyFailIfStuck | internal/lifecycle/orchestrator/finalise.go:19-35 | a row at verifying becomes failed; every other row, and an unreadable one, is left alone |
| Orchestrator.DriveSequential | internal/lifecycle/orchestrator/workflow_task.go:136-170 | sub-agents run in order and stop at the first error; the verifier's result is its agents' if its turn came, and empty otherwise |
| Orchestrator.RunForTask | internal/lifecycle/orchestrator/workflow_task.go:136-247 | status and result of a whole run, with the verifier's result tied to its agents; by the kind of run, which sections it never touches and as which sub-agent it ends; success never leaves the row at verifying |
| Orchestrator.RunEnds | internal/lifecycle/orchestrator/workflow_task.go:172-247 | plan-only and gated runs end as the planner alone, work-only as the worker alone, verify-only as the verifier; a failed or asking worker ends a from-work run |
| Orchestrator.PlanRunEnds | internal/lifecycle/orchestrator/workflow_task.go:223-230 | a plan-only or gated run from planning ends at help, waiting for an answer, waiting for approval or planned, by error, question and setting alone |
| Orchestrator.WorkRunEnds | internal/lifecycle/orchestrator/workflow_task.go:200-208 | a work-only run ends at help, waiting for an answer or done, and fails exactly on an error that is not an abort |
| Orchestrator.ClarificationEndsRun | internal/lifecycle/orchestrator/workflow_task.go:65-75 | such a run ends with the row at needs-clarification whatever the verifier would have said |
| Orchestrator.WorkerAsks | internal/agents/worker/run.go:138-190 | the worker stops with a question exactly when its begin is legal and its clean turn left one |
| Orchestrator.RunCompletes | internal/lifecycle/orchestrator/workflow_task.go:136-247 | every kind of run, gated or not, from every row: it ends with a completed row and no error if and only if the row's start and the agents say so, errors, aborts, questions and lost begins included |
| Orchestrator.FromWorkCompletes | internal/lifecycle/orchestrator/workflow_task.go:65-75 | from plan-done: exactly when the verifier's agents pass without a question and the work lets them, by sessions, errors and abort |
| Orchestrator.FreshFullCompletes | internal/lifecycle/orchestrator/workflow_task.go:32-63 | a full run of a row never worked or verified: exactly when planner and worker end cleanly, nothing waits for approval, and the verifier's agents pass without a question |
| Orchestrator.QuestionedFullCompletes | internal/lifecycle/orchestrator/workflow_task.go:32-63 | a full run whose planner leaves a question completes the row exactly when an old work session resumes from it and the rest ends cleanly |
| Orchestrator.ReviewPasses | internal/agents/verifier/agent.go:107-154 | a review succeeds exactly when its agents pass: at once when resumed, within the limit otherwise |
| Orchestrator.ReviewErrs | internal/agents/verifier/agent.go:107-154 | a review reports an error exactly when its agents err: at once when resumed, before passing or running out otherwise |
| Orchestrator.FailingReviewNeverCompletes | internal/lifecycle/orchestrator/workflow_task.go:65-75 | agents that never pass never complete the row |
| Orchestrator.OldSessionCompletes | internal/agents/worker/run.go:128-136 | a planned row with an old work session completes although its work turn left no trace |
| Reap.ReapProgress | internal/cli/tasks/reap.go:49-97 | a reaped row always leaves its active status through a legal edge, to help, plan-pending-approval, plan-done, work-done or needs-clarification |
| Reap.ReapFields | internal/cli/tasks/reap.go:49-97 | field by field, what a reap does: the phase's end time, the status its files call for, the summary of a complete plan that has one; nothing else |
| Reap.ReapAgreesWithFinish | internal/cli/tasks/reap.go:49-97 | the reaper's status equals a clean finish on the same files if and only if a question was left, the phase is work, or both planner artifacts exist |
| Reap.MaybeReap | internal/cli/tasks/reap.go:30-47 | a planning or working row is probed, and it is reaped and written exactly when the prober itself got the row's lock, which it does exactly when, at the steps that looked, the file was there and the lock free and neither call failed; any other row is returned as it is and not probed |
| Reap.LeavesIffFree | internal/cli/tasks/reap.go:30-47 | a planning or working row leaves its active status if and only if its probe found the lock file there and unlocked and neither of its calls failed; otherwise it is unchanged |
| Reap.ProbeLock | internal/store/tasks/lock.go:159-185 | the probe owned the lock exactly when it reports so, exactly when the file was there and the lock free at the steps of its open and flock; it owns nothing on return |
| Witnesses.MissingArtifact | internal/cli/tasks/reap.go:49-81 | a plan without plan.md is reaped to help where its own finish says planned |
| Witnesses.ReapOverwritesBegin | internal/cli/tasks/reap.go:42-46 | a run in which that condition fails: a begin between probe and write is overwritten by the reap of an older copy |
| Reap.FinalisePlanReap | internal/cli/tasks/reap.go:49-81 | end time, event by files, summary refreshed only when planned |
| Reap.FinaliseWorkReap | internal/cli/tasks/reap.go:83-97 | end time and event by clarification |
| Reap.ReapBackgroundTasks | internal/cli/tasks/reap.go:14-22 | same length and order; each reapable row is probed in its own lock file's run and reaped exactly when the probe got the lock, every other row is left alone, and the store is written for the reaped rows only |
| FlockRuns.StepKeeps | internal/store/tasks/lock.go:105-209 | every system call of every actor keeps the protocol invariant |
| FlockRuns.MutualExclusion | internal/store/tasks/lock.go:105-126 | two actors that both believe to own the lock are one |
| FlockRuns.LockSafety | internal/store/tasks/lock.go:105-185 | after any interleaving, crashes and repeated releases included, at most one actor owns the lock and the kernel lock is on its description |
| FlockRuns.LockHeldIffOwned | internal/store/tasks/lock.go:142-185 | the kernel lock is held exactly while some live actor owns it |
| FlockRuns.RecordNamesHolder | internal/store/tasks/lock.go:187-209 | once a holder's record was written the file is empty or names that holder until it lets go or dies |
| FlockRuns.ProbeNeverWrites | internal/store/tasks/lock.go:167-185 | no step of a reaper probe changes the file |
| FlockRuns.WonMeansOwned | internal/store/tasks/lock.go:105-126 | a recorded win is a flock of the run that got the lock, and the file recorded with it is the one that step found |
| FlockRuns.TouchedMeansTruncated | internal/store/tasks/lock.go:187-192 | an actor is on record as having truncated the file exactly when a step of the run was its truncation |
| FlockRuns.TakeoverHeldLock | internal/cli/tasks/resume_shared.go:101-153 | a takeover reports success only after it has itself held the lock |
| FlockRuns.CrashFrees | internal/cli/tasks/reap.go:26-42 | a holder's death frees the lock for the next flock of anyone else |
| FlockRuns.WonExactly | internal/store/tasks/lock.go:105-126 | a live actor is on record as a winner exactly when it is past its flock |
| FlockRuns.SeenNamesOwner | internal/cli/tasks/resume_shared.go:101-122 | in every run, a refused takeover reads another process's record if and only if the owner's flock found one and the owner has not truncated the file since; after a truncation it reads nobody or the owner |
| FlockRuns.StaleRecordSeen | internal/cli/tasks/resume_shared.go:101-122 | a run in which that condition holds: a probe owns the lock and the takeover reads a dead process |
| FlockRuns.RepeatedReleaseInert | internal/store/tasks/lock.go:142-150 | a corollary for whole runs: after a release, deleting all further calls on that lock object changes nothing |
| LockFile.OthersStep | internal/store/tasks/lock.go:105-185 | no step of another process, repeated releases included, takes away an actor's place, descriptor, lock or record: a release never drops a lock somebody else has since taken |
| LockTrace.PolledInVain | internal/cli/tasks/resume_shared.go:131-153 | a poll that gave up without an error looked once per turn, and each time the file was absent, the lock taken, or the flock failed |
| LockFile.Lock.UpdatePhase | internal/store/tasks/lock.go:130-136 | the record's phase changes while the lock stays held; after a release nothing happens |
| LockFile.Lock.Release | internal/store/tasks/lock.go:142-150 | the first call ends with no descriptor and no lock, the second touches nothing |
| LockFile.OpenAndLock | internal/store/tasks/lock.go:105-126 | the open and the flock with everybody else before, between and after: where they stand in the run, and the place each outcome leads to |
| LockFile.AcquireLockAt | internal/store/tasks/lock.go:105-126 | a lock object comes back exactly when the file opened, the flock worked and the lock was free at that step, with the kernel lock and the caller's record; a refused flock closes the descriptor and returns the holder snapshot; a file that cannot be opened is an error |
| LockFile.TryAcquireForReapAt | internal/store/tasks/lock.go:167-185 | a lock object comes back exactly when the file was there, opened, the flock worked and the lock was free at that step; an error exactly when the file could not be opened; no descriptor is left otherwise |
| LockFile.TakeoverIfHeld | internal/cli/tasks/resume_shared.go:101-122 | success comes exactly with the first look, or after a terminated holder with the first poll, that finds the lock free; it means that the actor won the lock during the call, and it holds nothing on return |
| LockFile.TakeIfFree | internal/cli/tasks/resume_shared.go:101-122 | the first acquire: taken and released exactly when the lock was free at the step that tried, contended or not openable otherwise |
| LockFile.PollOnce | internal/cli/tasks/resume_shared.go:131-153 | one probe: won and released again exactly when the file was there and the lock free when it looked, an error exactly when the file could not be opened |
| LockFile.WaitLockReleased | internal/cli/tasks/resume_shared.go:131-153 | the bounded poll goes on until a probe gets the lock, one fails to open, or the turns are used up; it succeeds exactly when its last probe got the lock, every earlier one having missed it |
| PrFetch.ChainUnique | internal/tools/github/fetch.go:104-137 | the service's answers determine the chain of pages and its end |
| PrFetch.FetchPaged | internal/tools/github/fetch.go:110-137 | on a finite chain the loop ends with every node in order, or with the first error, after one request per page |
| PrFetch.EndsIffFiniteChain | internal/tools/github/fetch.go:120-135 | the loop ends if and only if the chain of pages is finite |
| PrFetch.CircleNeverEnds | internal/tools/github/fetch.go:120-135 | a service whose cursor leads back to its own page keeps the loop going for ever |
| PrItems.CollectThreadReplyIndex | internal/tools/github/reply.go:55-65 | the position map is true exactly where the next comment of the thread is a j reply |
| PrFeedback.ReplyIsOwn | internal/tools/github/reply.go:5-17 | the reply test holds exactly for a text by the viewer with the marker somewhere in it |
| PrItems.CollectReplyAuthors | internal/tools/github/reply.go:34-78 | the index answers: for a conversation id, whether some comment with that id is followed by a j reply; for a thread id, the positions of the last thread with that id |
| PrItems.AppendConversationItems | internal/tools/github/items.go:29-49 | one item per comment that is not a j reply, in order, marked as the index says |
| PrItems.CollectThreadItems | internal/tools/github/items.go:51-86 | the same for a thread, with its id, outdated flag and line |
| PrItems.AppendReviewSummaryItems | internal/tools/github/items.go:94-113 | one item per review whose body is not blank and not a j reply, in order |
| PrItems.IndexAgrees | internal/tools/github/reply.go:20-78 | with distinct comment and thread ids the map index is the naive definition: replied iff the next comment in the same list is a j reply |
| PrItems.CollectItems | internal/tools/github/items.go:13-27 | the flattened list for any ids, equal to the naive definition when ids are distinct |
| PrFeedback.FeedbackTold | internal/tools/github/items.go:13-113 | the items are exactly the comments, thread comments and non-blank reviews that are not j's own replies, each once, in order, with their own fields, and marked as answered exactly when j's reply comes right after a comment of that id |
| PrFeedback.ToldUnique | internal/tools/github/items.go:13-113 | that determines the items |
| PrItems.ItemsDistinct | internal/tools/github/reply.go:80-93 | distinct node ids per kind make all source ids pairwise distinct, the three prefixes being disjoint |
| PrItems.FetchPR | internal/tools/github/fetch.go:15-102 | the first failing step in order gives the error; otherwise all pages of all three lists, flattened through the index, for any ids |
| PrFeedback.GatheredTold | internal/tools/github/fetch.go:15-43 | a successful fetch gives that feedback of all pages, and the pull request was open |
| PrFeedback.FailureOrder | internal/tools/github/fetch.go:139-154 | which error a failing fetch gives: viewer, first page, absence, merged before closed before draft, then the first list that fails |
| PrItems.GatheredNaive | internal/tools/github/items.go:13-27 | with distinct ids the fetched items are the naive definition's, with pairwise distinct source ids |
| CodeReview.SnapshotSourceIDs | internal/store/codereview/validate.go:21-27 | the snapshot is the set of ids of the file |
| CodeReview.ValidateItem | internal/store/codereview/validate.go:146-167 | accepts exactly the decided items; each fault has its exact condition in order of precedence |
| CodeReview.CountIds | internal/store/codereview/validate.go:49-52 | the count map holds each id's number of occurrences |
| CodeReview.CheckIds | internal/store/codereview/validate.go:49-67 | accepts exactly the duplicate-free enumerations of the snapshot, and a fault names an id that is missing, repeated or invented |
| CodeReview.DistinctCounts | internal/store/codereview/validate.go:53-67 | no id counted twice is the same as all ids distinct |
| CodeReview.EnumerationSize | internal/store/codereview/validate.go:35-39 | an enumeration of the snapshot has as many items as the snapshot has ids |
| CodeReview.ValidatePost | internal/store/codereview/validate.go:40-74 | accepts if and only if the top decision is set and allowed, the ids enumerate the snapshot without duplicates, and every item is decided; every fault reported is true and comes in order |
| CodeReview.ItemsFromFetch | internal/resolver/code_review.go:143-159 | row by row, every field of the fetched item carried over and nothing decided |
| CodeReview.PlannerPasses | internal/store/codereview/validate.go:29-39 | a planner that keeps the fetched rows and decides them all passes if and only if the fetched ids were distinct |
| CodeReview.FetchAndWriteReview | internal/resolver/code_review.go:110-141 | the first failing step gives the error; otherwise the written rows are the fetched items one by one, undecided, and the snapshot is that of the written file |
| CodeReview.WrittenRows | internal/resolver/code_review.go:110-159 | end to end: the rows written are the wanted feedback of the pull request with its fields, undecided, and with distinct node ids a row is marked as answered exactly when j's own reply is the next comment |
| CodeReview.FetchedRoundPasses | internal/store/codereview/validate.go:29-74 | from the service to the validator: with node ids of their own the rows are the naive feedback, and any planner that keeps and decides them passes |
| CodeReview.AnyAccepted | internal/store/codereview/validate.go:137-144 | true iff some item is accepted |
| CodeReview.ValidateRound | internal/store/codereview/validate.go:88-135 | additionally exactly: changes_needed has an accepted item and a non-empty plan.md, clarification_needed a non-empty clarification.md |
| Rounds.ParsePrinted | internal/store/codereview/round.go:128-148 | the printed directory name of every positive 64-bit number is read back as that number |
| Rounds.ParsedExactly | internal/store/codereview/round.go:128-137 | the names read as round n: the prefix, perhaps a plus sign, and digits worth n, which is positive and fits 64 bits |
| Rounds.PrintedIffCanonical | internal/store/codereview/round.go:128-148 | a name that reads as n is the printed one iff its number starts with 1 to 9 |
| Rounds.SortInts | internal/store/codereview/round.go:124 | ascending and a permutation |
| Rounds.ListRoundNumbers | internal/store/codereview/round.go:105-126 | ascending, exactly the numbers of the directories that parse |
| Rounds.Directory.ResolveOrAllocate | internal/store/codereview/round.go:57-83 | resumes iff the latest round's printed directory has clarification.md; otherwise creates the next; failures change nothing |
| Rounds.ResolvesUnique | internal/store/codereview/round.go:57-83 | the tree and the I/O outcomes determine what a call returns and what it leaves |
| Rounds.AllocatedIsNew | internal/store/codereview/round.go:73-82 | a fresh round did not exist and exceeds every listed one, if and only if the largest 64-bit number is not listed |
| Rounds.NumbersNeverDecrease | internal/store/codereview/round.go:57-83 | over any history without deleted directories the returned numbers never decrease, and a fresh one exceeds all before it |
| Rounds.NextCall | internal/store/codereview/round.go:66-71 | after a call returned n the next call resumes n iff its clarification.md exists, and otherwise allocates the next number |
| Rounds.FirstRound | internal/store/codereview/round.go:57-83 | the first round of a task is round-1, resumed while its clarification.md is there and followed by 2 otherwise |
| Rounds.ClarificationRoundResumed | internal/store/codereview/validate.go:81-83 | a round accepted as clarification_needed is the one the next call resumes |
| Rounds.ZeroPaddedNotResumed | internal/store/codereview/round.go:66-71 | a clarification in round-007 is listed as 7 but not resumed |
| Rounds.LargestListed | internal/store/codereview/round.go:73-76 | with the largest 64-bit number listed the next round gets the smallest |
| Porcelain.SplitJoin | internal/cli/tasks/worktree.go:33 | splitting joined newline-free lines gives the lines back |
| Porcelain.ParseWorktreeListPorcelain | internal/cli/tasks/worktree.go:24-54 | the cursor-and-flush loop computes the reader's fold over the lines |
| Porcelain.FeedBlock | internal/cli/tasks/worktree.go:33-53 | the lines of one record, whatever else they contain, add exactly that record |
| Porcelain.RoundTrip | internal/cli/tasks/worktree.go:20-54 | any printed records with other attributes, blank lines and line endings parse back in order, trimmed |
| Porcelain.TrimmedSame | internal/cli/tasks/worktree.go:39-50 | a record comes back unchanged if and only if its path and branch have no surrounding white space |
| Porcelain.BaseOfChild | internal/cli/tasks/worktree.go:84 | the base name of dir/name is name |
| Porcelain.FirstKept | internal/cli/tasks/worktree.go:81-96 | the head of the filtered list is the first match; the list is empty iff nothing matches |
| Porcelain.CollectMatches | internal/cli/tasks/worktree.go:81-87 | the matches in order |
| Porcelain.SelectedIs | internal/cli/tasks/worktree.go:68-96 | the filter's answers by the records' own paths and branches: first, none, more than one |
| Porcelain.SelectWorktree | internal/cli/tasks/worktree.go:68-96 | the first record whose base name or branch matches, none iff there is none, ambiguous iff more than one |
| Slug.Words | internal/store/tasks/worktree.go:51-66 | words are non-empty runs of [a-z0-9]; none iff the text has no such character |
| Slug.Slugify | internal/store/tasks/worktree.go:51-69 | the flag-driven loop gives the lowercased words joined by single dashes, cut to the limit |
| Slug.TrimmedIsDashed | internal/store/tasks/worktree.go:55-67 | what the loop writes, trimmed, is the words joined by dashes |
| Slug.SlugShape | internal/store/tasks/worktree.go:47-69 | slug characters only, no leading or doubled dash, within the limit, empty iff no letter or digit; a trailing dash iff the cut falls right behind a word |
| Slug.SlugLetters | internal/store/tasks/worktree.go:51-69 | a slug's letters and digits are those of the lowercased text in order, all of them unless it is cut |
| Slug.ClippedBehindWord | internal/store/tasks/worktree.go:67-68 | a text whose first word is one short of the limit gives a slug ending in a dash |
| Slug.DoubledDash | internal/store/tasks/worktree.go:38-44 | a project like that gives a worktree name with a doubled dash |
| Slug.WorktreeNameFor | internal/store/tasks/worktree.go:28-45 | at most 97 characters, no slash, non-empty when the id has a letter or digit; a doubled dash iff the clipped project slug ends in one |
| TaskSort.TotalOrder | internal/store/tasks/sort.go:22-53 | the comparator is antisymmetric, transitive, and ties only equal ids |
| TaskSort.TextBeforeIs | internal/store/tasks/sort.go:34-40 | ids are compared at the first place where they part |
| StableSort.SortStable | internal/store/tasks/sort.go:22 | the in-place sort leaves the specified sequence |
| StableSort.SortedIsOrdered | internal/store/tasks/sort.go:21-54 | its result is an ordered permutation |
| StableSort.Stable | internal/store/tasks/sort.go:22 | entries the comparison cannot tell apart keep their order |
| StableSort.OrderedUnique | internal/store/tasks/sort.go:8-13 | entries the comparison tells apart have one ordering only |
| TaskSort.SortTasks | internal/store/tasks/sort.go:21-54 | the array ends as the display order of its old contents |
| TaskSort.OrderOfInputIrrelevant | internal/store/tasks/sort.go:8-21 | with distinct ids the result is the same for every input order and for every correct sort |
| TaskSort.DisplayOrder | internal/store/tasks/sort.go:8-80 | a permutation; the six statuses in flight first, by ascending id, the others by the end of the latest stage reached, then by descending id |
| TitlePrefix.StripStatusPrefix | internal/lifecycle/linear_title_sync.go:65-94 | the loop ends and strips exactly the leading run of emoji and white space up to the last emoji and its blank |
| TitlePrefix.StripLaws | internal/lifecycle/linear_title_sync.go:60-74 | the result is a suffix, only emoji and white space are removed, stripping is idempotent |
| TitlePrefix.StripExactly | internal/lifecycle/linear_title_sync.go:60-94 | exactly what is stripped: everything up to the last leading emoji and a single blank behind it |
| TitlePrefix.StripDecorated | internal/lifecycle/linear_title_sync.go:53-58 | a decoration is stripped off again |
| TitlePrefix.DecorateTitle | internal/lifecycle/linear_title_sync.go:56-58 | the prefix of the status in front of the stripped title |
| TitlePrefix.HistoryForgotten | internal/lifecycle/linear_title_sync.go:53-58 | decorating step by step along any statuses equals decorating the original once with the last |
| TitlePrefix.ShownMark | internal/lifecycle/linear_title_sync.go:53-111 | the title shown, status by status: alert, eyes or nothing, a blank, and the text without a leading emoji |
| DrainLog.CutIsLines | internal/util/run/spawn_formatted.go:150-165 | there is only one way to cut bytes into slices that end at newlines |
| DrainLog.LinesCut | internal/util/run/spawn_formatted.go:150-165 | every byte string is cut into such slices, which together are all of it |
| DrainLog.StepKeeps | internal/util/run/spawn_formatted.go:132-166 | every step of the child, the two goroutines and other writers of the log keeps the invariant |
| DrainLog.SlicesPartition | internal/util/run/spawn_formatted.go:145-166 | in every interleaving the slices partition the bytes taken from the pipe, with at most one newline, at the end; after a clean drain they are the lines of all the child wrote |
| DrainLog.OutputsFrom | internal/util/run/spawn_formatted.go:145-166 | the outputs are the non-empty formatted lines, each once and in order |
| DrainLog.ExitMarkLast | internal/util/run/spawn_formatted.go:129-140 | the exit marker comes after every output of this child, once the child was waited for and the drain is through |
| DrainLog.FullLog | internal/util/run/spawn_formatted.go:38-42 | with all writes going through, the child's log is the formatted lines of all it wrote and then the marker |
| DrainLog.StepsShrink | internal/util/run/spawn_formatted.go:129-166 | each step of the two goroutines leaves less to do |
| DrainLog.ReapGetsThere | internal/util/run/spawn_formatted.go:38-42 | once the child is gone the two goroutines take at most a fixed number of steps in any order, and where neither can go on the marker is written |
| DrainLog.ReachesMarker | internal/util/run/spawn_formatted.go:132-166 | from every such state they can reach the marker within that number |
| DrainLog.DrainFormatted | internal/util/run/spawn_formatted.go:145-166 | the read loop appends the non-empty formatted lines of the stream in order; no formatter means unchanged |
| DrainLog.KeptIsOutputs | internal/util/run/spawn_formatted.go:145-166 | with every write going through, the loop adds what the goroutine's log ends with |
| DrainLog.KeptOrigins | internal/util/run/spawn_formatted.go:145-166 | in general it adds, in order, the non-empty outputs whose writes went through |
| DrainLog.DrainAndReap | internal/util/run/spawn_formatted.go:129-166 | what one child adds to the log: the formatted lines of its stream and then the marker |

## Left out

- User interface: commands, pickers, forms, styling, tables and the wording of messages.
- Foreign calls: HTTP and GraphQL transport, Linear hooks' network calls, process spawning and signals, file watching.
- Encodings: TOML and JSON; a row or record write is atomic in the model except for the truncation of the lock file.
- The agent runtime's internals: sub-agents run in order and stop at the first error.
- Tool and model lookups that can fail before a begin: one `early` flag per sub-agent.
- `j tasks discard` in the lock model: it unlinks the lock file, so a later open locks another inode.
- Detached turns in one orchestrated run: its sub-agents wait; the log hand-off is covered by `FinishOnce` and `TaskRuns`.
- Clock ties in runs: equal readings would resolve to verify, then work, then plan (`LatestPhase.LatestEndAt` covers them).
- Comments of a review thread past the first hundred, a documented limit of the program.
- The pull request header of a fetch: copied fields only.
- `SIGKILL` escalation and deadlines of a takeover: a flag and a bound on the number of polls.
- Lowercasing beyond ASCII: any function from characters to characters that agrees with ASCII.
- The library's sort algorithm: an in-place insertion sort; `TaskSort.OrderOfInputIrrelevant` makes the choice immaterial.
- Prompt composition, log rendering, settings keys and tool/model precedence: field-by-field claims only.
- FlockRuns.RecordNamesHolder: the record may also be empty, because truncation and writing are two calls and either may fail.
- LockFile.Lock.UpdatePhase: for lock objects of an acquire; callers of a probe must release it at once (`internal/store/tasks/lock.go:152-158`), so its retagging is not modelled.
- Continue.ContinueNeverPanics: begins of other processes and reaps of older copies between resume and read are not covered; `Continue.ChildAfterAnything` has the exact condition for those.
- Continue.ClarificationNeverDeadEnds: the same, and `Continue.ChildAfterAnything` again has the condition.
- The finish of an object whose begin had no edge: it writes nothing (`TaskRuns.LostFinish`), and no session record after it is modelled.
- PrFetch.FetchPaged: requires a finite chain, since the loop does not end otherwise (`PrFetch.EndsIffFiniteChain`).
- Rounds.NumbersNeverDecrease: requires that the largest 64-bit number is never listed (`Rounds.AllocatedIsNew` has the exact condition).
