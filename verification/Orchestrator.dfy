/** One orchestrated run: the sub-agents of a phase in order, the verifier guard and the stuck finaliser. */
module Orchestrator {
  import opened Common
  import opened Fsm
  import opened TaskRow
  import opened Lifecycle
  import opened TaskRuns
  import opened Continue
  import FixLoop

  datatype RunPhase = Full | PlanOnly | FromWork | WorkOnly | VerifyOnly

  datatype Sub = Planner | Worker | Verifier | GuardedVerifier

  /** The sub-agents of a phase; a gated full run stops after the planner. */
  function SubAgents(p: RunPhase, gated: bool): seq<Sub> {
    match p
    case VerifyOnly => [Verifier]
    case WorkOnly => [Worker]
    case FromWork => [Worker, GuardedVerifier]
    case PlanOnly => [Planner]
    case Full => if gated then [Planner] else [Planner, Worker, GuardedVerifier]
  }

  /**
   * What the outside world answers to one planner or worker run. `early` stops it before the
   * begin; `abort` marks its errors as a user abort, which is reported as success.
   */
  datatype Turn = Turn(early: bool, abort: bool, b: BeginInput, startErr: bool, minted: string, waitErr: bool,
                       clarification: bool, approval: bool, summary: string, url: string)

  /** The same for the verifier, whose turns come from `agents`. */
  datatype Review = Review(early: bool, abort: bool, b: BeginInput, agents: FixLoop.Agents, maxIterations: int,
                           clarification: bool)

  datatype World = World(plan: Turn, work: Turn, review: Review)

  datatype Out = Done | Failing | Panicked

  // ----- The status-level account of a run -----

  /** A row seen through its status and which phases have a stored session. */
  datatype Snap = Snap(status: Status, plan: bool, work: bool, verify: bool)

  function Abs(t: Task): Snap {
    Snap(t.status, t.plan.agent.resumeID != "", t.work.agent.resumeID != "", t.verify.agent.resumeID != "")
  }

  function ErrOf(t: Turn): bool { t.startErr || t.waitErr }

  function Reported(t: Turn): Out { if ErrOf(t) && !t.abort then Failing else Done }

  /** A session minted after the start is recorded only when none was known before it. */
  function Minted(t: Turn): bool { t.b.session.resumeID == "" && !t.startErr && t.minted != "" }

  function PlanFinish(t: Turn): FinishInput { FinishPlan(ErrOf(t), t.clarification, t.approval, t.summary) }

  function WorkFinish(t: Turn): FinishInput { FinishWork(ErrOf(t), t.clarification, t.url) }

  function PlannerAfter(s: Snap, t: Turn): (Snap, Out) {
    if t.early then (s, Failing)
    else
      var out := if ErrOf(t) then Failing else Done;
      if s.plan then
        if Legal(s.status, PlanResume) then (s.(status := Destination(FinishEvent(PlanFinish(t)))), out)
        else (s, Panicked)
      else if s.status == Planning || Legal(s.status, PlanRestart) then
        (s.(status := Destination(FinishEvent(PlanFinish(t))), plan := t.b.session.resumeID != "" || Minted(t)), out)
      else (if Minted(t) && s.status != Unset then s.(plan := true) else s, out)
  }

  function WorkerAfter(s: Snap, t: Turn): (Snap, Out) {
    if t.early then (s, if t.abort then Done else Failing)
    else if s.work then
      (if Legal(s.status, WorkResume) then s.(status := Destination(FinishEvent(WorkFinish(t)))) else s, Reported(t))
    else if Legal(s.status, WorkRestart) then
      (s.(status := Destination(FinishEvent(WorkFinish(t))), work := t.b.session.resumeID != "" || Minted(t)), Reported(t))
    else (if Minted(t) && s.status != Unset then s.(work := true) else s, Reported(t))
  }

  // ----- The row-level facts behind it -----

  lemma BegunAbs(k: BeginKind, t: Task, b: BeginInput, now: Time)
    requires k in {RestartPlan, ResumePlan, ExistingPlan, RestartWork, ResumeWork}
    ensures var r := Begun(k, t, b, now);
      && r.id == t.id
      && r.status == (if k == ExistingPlan then t.status
                      else if BeginLegal(k, t) then ActiveStatus(BeginPhase(k)) else t.status)
      && Abs(r).plan == (if k == RestartPlan || k == ExistingPlan then b.session.resumeID != "" else Abs(t).plan)
      && Abs(r).work == (if k == RestartWork then b.session.resumeID != "" else Abs(t).work)
      && Abs(r).verify == Abs(t).verify && OtherPhasesSame(BeginPhase(k), t, r)
      && r.Session(BeginPhase(k)) == (if k in {ResumePlan, ResumeWork} then t.Session(BeginPhase(k)) else b.session.resumeID)
  {
    BeginFrame(k, t, b, now);
    PhasesApart(k, b, FinishWork(false, false, ""), t, now, now);
    if k != ExistingPlan {
      AppliedStatus(Prepared(k, t, b, now), BeginEvent(k).value, now);
    }
  }

  lemma FinishEdgeOf(s: Status, f: FinishInput)
    ensures Legal(s, FinishEvent(f)) <==> s == ActiveStatus(f.Phase())
  {
  }

  lemma FinishedAbs(t: Task, f: FinishInput, endAt: Time, now: Time)
    ensures var r := Finished(t, f, endAt, now);
      && r.id == t.id
      && Abs(r) == Abs(t).(status := if t.status == ActiveStatus(f.Phase()) then Destination(FinishEvent(f)) else t.status)
      && OtherPhasesSame(f.Phase(), t, r) && r.Session(f.Phase()) == t.Session(f.Phase())
  {
    PhasesApart(RestartWork, BeginInput(AgentSession("", "", ""), "", ""), f, t, endAt, now);
    FinishEdgeOf(t.status, f);
    FinishedStatus(t, f, endAt, now);
  }

  function SessionSet(s: Snap, p: Phase): Snap {
    match p case PlanPhase => s.(plan := true) case WorkPhase => s.(work := true) case VerifyPhase => s.(verify := true)
  }

  /** The rows are as before, except that the row of `t` was rewritten as `s`, in phase `p` only, when there is one. */
  predicate RowsRecorded(before: map<string, Task>, after: map<string, Task>, t: Task, p: Phase, session: string, s: Option<Snap>) {
    match s
    case None => after == before
    case Some(n) =>
      && t.id in after && after[t.id].id == t.id && Abs(after[t.id]) == n && after == before[t.id := after[t.id]]
      && OtherPhasesSame(p, t, after[t.id]) && after[t.id].Session(p) == session
  }

  /** The row an agent turn leaves: finished when its phase was active, at most session-stamped otherwise. */
  predicate TurnLeft(before: map<string, Task>, after: map<string, Task>, t: Task, f: FinishInput, recorded: bool, id: string) {
    var session := if recorded then id else t.Session(f.Phase());
    var s := if recorded then SessionSet(Abs(t), f.Phase()) else Abs(t);
    if t.status == ActiveStatus(f.Phase()) then
      RowsRecorded(before, after, t, f.Phase(), session, Some(s.(status := Destination(FinishEvent(f)))))
    else RowsRecorded(before, after, t, f.Phase(), session, if recorded then Some(s) else None)
  }

  /** The row one planner or worker run leaves: begun at `at`, its minted session recorded, finished at `end`. */
  function TurnRow(t: Task, k: BeginKind, e: Turn, f: FinishInput, at: Time, end: Time, now: Time): Task {
    var b, p := Begun(k, t, e.b, at), BeginPhase(k);
    Finished(if b.Session(p) == "" && !e.startErr && e.minted != "" then b.WithSession(p, e.minted) else b, f, end, now)
  }

  /** The run took place between readings `from` and `to`. */
  ghost predicate Ran(t: Task, k: BeginKind, e: Turn, f: FinishInput, from: Time, to: Time, row: Task) {
    exists at, end :: from <= at < end <= to && row == TurnRow(t, k, e, f, at, end, to)
  }

  /** The session record and the finish, folded into one account of the store. */
  lemma TurnRows(before: map<string, Task>, t: Task, id: string, recorded: bool, f: FinishInput, r: Task,
                 endAt: Time, now: Time, middle: map<string, Task>, final: Task, after: map<string, Task>)
    requires t.id != "" && t.status != Unset && (recorded ==> id != "")
    requires r == if recorded then t.WithSession(f.Phase(), id) else t
    requires middle == if recorded then Written(before, r, true) else before
    requires final == Finished(r, f, endAt, now)
    requires after == Kept(middle, r.status, FinishEvent(f), final, true)
    ensures TurnLeft(before, after, t, f, recorded, id)
    ensures t.status == ActiveStatus(f.Phase()) ==> t.id in after && after[t.id] == final
  {
    FinishEdgeOf(r.status, f);
    FinishedAbs(r, f, endAt, now);
    if recorded {
      assert Abs(r) == SessionSet(Abs(t), f.Phase());
    }
    if t.status == ActiveStatus(f.Phase()) {
      assert Storable(final);
      assert after == before[t.id := final];
    }
  }

  /** The store holds a writable row under its own id. */
  predicate Seated(rows: map<string, Task>, id: string) {
    id in rows && rows[id].id == id && Storable(rows[id])
  }

  /** Nothing but the row `id` changed, and of it no other phase's section. */
  ghost predicate PhaseOnly(p: Phase, id: string, before: map<string, Task>, after: map<string, Task>) {
    id in before && id in after && after == before[id := after[id]] && OtherPhasesSame(p, before[id], after[id])
  }

  /** The session an object starts with: the stored one, or else the caller's. */
  function Known(stored: string, b: BeginInput): string { if stored != "" then stored else b.session.resumeID }

  /**
   * The session stored after a turn. A stored one is never replaced; a caller's is stored with the
   * begin, so not when the begin had no edge; one minted by the agent is stored when there was no
   * other and the agent started.
   */
  predicate SessionLeft(before: string, legal: bool, e: Turn, after: string) {
    && (before != "" ==> after == before)
    && (before == "" && e.b.session.resumeID != "" ==> after == if legal then e.b.session.resumeID else "")
    && (before == "" && e.b.session.resumeID == "" ==> after == if e.startErr then "" else e.minted)
  }

  /** What a planner or worker turn leaves of its row: the right session, and with a legal begin exactly the row of that turn. */
  ghost predicate TurnDone(p: Phase, t: Task, e: Turn, f: FinishInput, from: Time, to: Time, row: Task) {
    && SessionLeft(t.Session(p), BeginLegal(Pick(p, t), t), e, row.Session(p))
    && (BeginLegal(Pick(p, t), t) ==> Ran(t, Pick(p, t), e, f, from, to, row))
  }

  /** The begin a planner run picks; a resume without an edge panics before anything is written. */
  method BeginPlanLifecycle(store: Store, clock: Clock, t: Task, b: BeginInput) returns (lc: PlanLifecycle?)
    requires t.id != "" && t.status != Unset
    modifies store, clock
    ensures lc == null <==> Pick(PlanPhase, t) == ResumePlan && !BeginLegal(ResumePlan, t)
    ensures lc == null ==> store.rows == old(store.rows)
    ensures old(clock.now) <= clock.now && (lc != null ==> lc.task == Begun(Pick(PlanPhase, t), t, b, clock.now))
    ensures lc != null ==>
      store.notices ==
        if t.plan.agent.resumeID != "" then old(store.notices) + [Notice(Transition(t.status, PlanResume, Planning), lc.task)]
        else if t.status == Planning || !Legal(t.status, PlanRestart) then old(store.notices)
        else old(store.notices) + [Notice(Transition(t.status, PlanRestart, Planning), lc.task)]
    ensures lc != null ==>
      && fresh(lc) && lc.store == store && lc.clock == clock && !lc.closed && lc.task.id == t.id
      && OtherPhasesSame(PlanPhase, t, lc.task) && lc.task.Session(PlanPhase) == Known(t.Session(PlanPhase), b)
      && Abs(lc.task) == Abs(t).(
           status := if BeginLegal(Pick(PlanPhase, t), t) then Planning else t.status,
           plan := Abs(t).plan || b.session.resumeID != "")
      && store.rows == if BeginLegal(Pick(PlanPhase, t), t) then old(store.rows)[t.id := lc.task] else old(store.rows)
  {
    if t.plan.agent.resumeID != "" {
      var edge := Fsm.Apply(t.status, PlanResume);
      if edge.None? {
        return null;
      }
      lc := new PlanLifecycle.BeginPlanResume(store, clock, t, b, true);
    } else if t.status == Planning {
      lc := new PlanLifecycle.BeginPlanExisting(store, clock, t, b, true);
    } else {
      lc := new PlanLifecycle.BeginPlanRestart(store, clock, t, b, true);
    }
    BegunAbs(Pick(PlanPhase, t), t, b, clock.now);
  }

  /** The agent turn, the late session capture and the single finish. */
  method RunPlanTurn(lc: PlanLifecycle, known: bool, e: Turn) returns (out: Out)
    requires !lc.closed && lc.task.id != "" && lc.task.status != Unset
    modifies lc, lc.store, lc.clock
    ensures out == if ErrOf(e) then Failing else Done
    ensures TurnLeft(old(lc.store.rows), lc.store.rows, old(lc.task), PlanFinish(e), !known && !e.startErr && e.minted != "", e.minted)
    ensures old(lc.clock.now) < lc.task.plan.endAt <= lc.clock.now
    ensures lc.task == Finished(if !known && !e.startErr && e.minted != "" then old(lc.task).WithSession(PlanPhase, e.minted) else old(lc.task),
                                PlanFinish(e), lc.task.plan.endAt, lc.clock.now)
    ensures old(lc.task).status == ActiveStatus(PlanPhase) ==>
      old(lc.task).id in lc.store.rows && lc.store.rows[old(lc.task).id] == lc.task
  {
    ghost var begun, rows0 := lc.task, lc.store.rows;
    if !e.startErr && !known {
      lc.RecordResumeSession(e.minted, true);
    }
    ghost var before, rows1 := lc.task, lc.store.rows;
    lc.Finish(e.startErr || e.waitErr, e.clarification, e.approval, e.summary, true);
    TurnRows(rows0, begun, e.minted, !known && !e.startErr && e.minted != "", PlanFinish(e), before,
             lc.task.plan.endAt, lc.clock.now, rows1, lc.task, lc.store.rows);
    return if e.startErr || e.waitErr then Failing else Done;
  }

  /** Begin and turn together stay within the row and the phase, and leave the right session. */
  lemma TurnApart(p: Phase, t: Task, begun: Task, f: FinishInput, e: Turn, legal: bool,
                  rows: map<string, Task>, rows1: map<string, Task>, rows2: map<string, Task>)
    requires t.id in rows && rows[t.id] == t && begun.id == t.id && OtherPhasesSame(p, t, begun) && f.Phase() == p
    requires begun.Session(p) == Known(t.Session(p), e.b) && (begun.status == ActiveStatus(p) <==> legal)
    requires rows1 == if legal then rows[t.id := begun] else rows
    requires TurnLeft(rows1, rows2, begun, f, begun.Session(p) == "" && !e.startErr && e.minted != "", e.minted)
    ensures PhaseOnly(p, t.id, rows, rows2)
    ensures SessionLeft(t.Session(p), legal, e, rows2[t.id].Session(p))
  {
  }

  lemma RanAt(t: Task, k: BeginKind, e: Turn, f: FinishInput, from: Time, at: Time, end: Time, to: Time, begun: Task, row: Task)
    requires from <= at < end <= to && begun == Begun(k, t, e.b, at)
    requires row == Finished(if begun.Session(BeginPhase(k)) == "" && !e.startErr && e.minted != ""
                             then begun.WithSession(BeginPhase(k), e.minted) else begun, f, end, to)
    ensures Ran(t, k, e, f, from, to, row)
  {
    assert row == TurnRow(t, k, e, f, at, end, to);
  }

  /** The planner's row: the derived summary unless it erred or asked, the caller's log path, and the phase's status. */
  lemma PlannerRow(t: Task, e: Turn, from: Time, to: Time, row: Task)
    requires BeginLegal(Pick(PlanPhase, t), t) && Ran(t, Pick(PlanPhase, t), e, PlanFinish(e), from, to, row)
    ensures var err := e.startErr || e.waitErr;
      && row.summary == (if err || e.clarification then t.summary else e.summary)
      && row.status == (if err then Help else if e.clarification then NeedsClarification
                        else if e.approval then PlanPendingApproval else PlanDone)
      && row.agentLogPath == e.b.log && row.pullRequestURL == t.pullRequestURL && row.worktree == t.worktree
      && from < row.plan.endAt <= to && row.work == t.work && row.verify == t.verify
  {
    var at, end :| from <= at < end <= to && row == TurnRow(t, Pick(PlanPhase, t), e, PlanFinish(e), at, end, to);
    TurnFields(t, Pick(PlanPhase, t), e, PlanFinish(e), at, end, to);
    FinishOutcome(PlanFinish(e));
  }

  /** The worker's row: the pull request found unless one was known, a worktree name, and the phase's status. */
  lemma WorkerRow(t: Task, e: Turn, from: Time, to: Time, row: Task)
    requires BeginLegal(Pick(WorkPhase, t), t) && Ran(t, Pick(WorkPhase, t), e, WorkFinish(e), from, to, row)
    ensures var err := e.startErr || e.waitErr;
      && row.pullRequestURL == (if t.pullRequestURL != "" then t.pullRequestURL else e.url)
      && row.status == (if err then Help else if e.clarification then NeedsClarification else WorkDone)
      && row.agentLogPath == e.b.log && row.summary == t.summary
      && row.worktree == (if t.worktree == "" && t.Session(WorkPhase) == "" then e.b.worktree else t.worktree)
      && from < row.work.endAt <= to && row.plan == t.plan && row.verify == t.verify
  {
    var at, end :| from <= at < end <= to && row == TurnRow(t, Pick(WorkPhase, t), e, WorkFinish(e), at, end, to);
    TurnFields(t, Pick(WorkPhase, t), e, WorkFinish(e), at, end, to);
    FinishOutcome(WorkFinish(e));
  }

  /** Begin, session record and finish, field by field. */
  lemma TurnFields(t: Task, k: BeginKind, e: Turn, f: FinishInput, at: Time, end: Time, to: Time)
    requires BeginPhase(k) == f.Phase() && BeginLegal(k, t) && k in {RestartPlan, ResumePlan, ExistingPlan, RestartWork, ResumeWork}
    ensures var row := TurnRow(t, k, e, f, at, end, to);
      && row.summary == (if f.FinishPlan? && !f.runErr && !f.clarification then f.summary else t.summary)
      && row.pullRequestURL == (if f.FinishWork? && t.pullRequestURL == "" then f.detectedURL else t.pullRequestURL)
      && row.agentLogPath == e.b.log && row.EndAt(f.Phase()) == end && row.status == Destination(FinishEvent(f))
      && row.worktree == (if t.worktree == "" && k == RestartWork then e.b.worktree else t.worktree)
      && OtherPhasesSame(f.Phase(), t, row)
  {
    var b, p := Begun(k, t, e.b, at), BeginPhase(k);
    var r := if b.Session(p) == "" && !e.startErr && e.minted != "" then b.WithSession(p, e.minted) else b;
    BeginFrame(k, t, e.b, at);
    PhasesApart(k, e.b, f, t, end, at);
    StampOnly(b, p, e.minted);
    BegunActive(k, t);
    FinishEdgeOf(r.status, f);
    FinishFields(r, f, end, to);
    FinishedAbs(r, f, end, to);
  }

  lemma StampOnly(b: Task, p: Phase, id: string)
    ensures var r := b.WithSession(p, id);
      && r.status == b.status && r.summary == b.summary && r.pullRequestURL == b.pullRequestURL
      && r.agentLogPath == b.agentLogPath && r.worktree == b.worktree && OtherPhasesSame(p, b, r)
  {
  }

  lemma BegunActive(k: BeginKind, t: Task)
    requires BeginLegal(k, t) && k in {RestartPlan, ResumePlan, ExistingPlan, RestartWork, ResumeWork}
    ensures match BeginEvent(k)
      case None => t.status == ActiveStatus(BeginPhase(k))
      case Some(e) => Destination(e) == ActiveStatus(BeginPhase(k))
  {
  }

  /** A begun row is at its phase's active status exactly when the begin was legal. */
  lemma ActiveIffLegal(p: Phase, t: Task, begun: Task)
    requires p != VerifyPhase
    requires begun.status == if BeginLegal(Pick(p, t), t) then ActiveStatus(p) else t.status
    ensures begun.status == ActiveStatus(p) <==> BeginLegal(Pick(p, t), t)
  {
    if !BeginLegal(Pick(p, t), t) {
      PickLegal(p, t);
    }
  }

  /** Begin and turn together are the status-level account. */
  lemma PlannerAccount(t: Task, e: Turn, begun: Task, rows: map<string, Task>, rows1: map<string, Task>, rows2: map<string, Task>)
    requires Seated(rows, t.id) && rows[t.id] == t && !e.early && begun.id == t.id
    requires Pick(PlanPhase, t) == ResumePlan ==> BeginLegal(ResumePlan, t)
    requires Abs(begun) == Abs(t).(
      status := if BeginLegal(Pick(PlanPhase, t), t) then Planning else t.status,
      plan := Abs(t).plan || e.b.session.resumeID != "")
    requires rows1 == if BeginLegal(Pick(PlanPhase, t), t) then rows[t.id := begun] else rows
    requires TurnLeft(rows1, rows2, begun, PlanFinish(e), begun.plan.agent.resumeID == "" && !e.startErr && e.minted != "", e.minted)
    ensures Seated(rows2, t.id) && Abs(rows2[t.id]) == PlannerAfter(Abs(t), e).0
  {
    if !BeginLegal(Pick(PlanPhase, t), t) {
      assert t.status != Planning;
    }
  }

  /** And they stay within the row and the phase. */
  lemma PlannerTurn(t: Task, e: Turn, begun: Task, rows: map<string, Task>, rows1: map<string, Task>, rows2: map<string, Task>,
                    from: Time, at: Time, to: Time, final: Task)
    requires Seated(rows, t.id) && rows[t.id] == t && !e.early && begun.id == t.id && OtherPhasesSame(PlanPhase, t, begun)
    requires begun.Session(PlanPhase) == Known(t.Session(PlanPhase), e.b)
    requires Pick(PlanPhase, t) == ResumePlan ==> BeginLegal(ResumePlan, t)
    requires Abs(begun) == Abs(t).(
      status := if BeginLegal(Pick(PlanPhase, t), t) then Planning else t.status,
      plan := Abs(t).plan || e.b.session.resumeID != "")
    requires rows1 == if BeginLegal(Pick(PlanPhase, t), t) then rows[t.id := begun] else rows
    requires TurnLeft(rows1, rows2, begun, PlanFinish(e), begun.plan.agent.resumeID == "" && !e.startErr && e.minted != "", e.minted)
    ensures Seated(rows2, t.id) && Abs(rows2[t.id]) == PlannerAfter(Abs(t), e).0 && PhaseOnly(PlanPhase, t.id, rows, rows2)
    requires from <= at < final.plan.endAt <= to && begun == Begun(Pick(PlanPhase, t), t, e.b, at)
    requires final == Finished(if begun.Session(PlanPhase) == "" && !e.startErr && e.minted != ""
                               then begun.WithSession(PlanPhase, e.minted) else begun, PlanFinish(e), final.plan.endAt, to)
    requires begun.status == ActiveStatus(PlanPhase) ==> t.id in rows2 && rows2[t.id] == final
    ensures TurnDone(PlanPhase, t, e, PlanFinish(e), from, to, rows2[t.id])
  {
    RanAt(t, Pick(PlanPhase, t), e, PlanFinish(e), from, at, final.plan.endAt, to, begun, final);
    PlannerAccount(t, e, begun, rows, rows1, rows2);
    ActiveIffLegal(PlanPhase, t, begun);
    TurnApart(PlanPhase, t, begun, PlanFinish(e), e, BeginLegal(Pick(PlanPhase, t), t), rows, rows1, rows2);
  }

  method RunPlanner(store: Store, clock: Clock, id: string, e: Turn) returns (out: Out)
    requires Seated(store.rows, id)
    modifies store, clock
    ensures Seated(store.rows, id)
    ensures (Abs(store.rows[id]), out) == PlannerAfter(Abs(old(store.rows)[id]), e)
    ensures PhaseOnly(PlanPhase, id, old(store.rows), store.rows)
    ensures e.early ==> store.rows == old(store.rows)
    ensures !e.early && out != Panicked ==>
      TurnDone(PlanPhase, old(store.rows)[id], e, PlanFinish(e), old(clock.now), clock.now, store.rows[id])
  {
    if e.early {
      return Failing;
    }
    var read := store.GetTask(id, true);
    var t := read.value;
    var lc := BeginPlanLifecycle(store, clock, t, e.b);
    if lc == null {
      return Panicked;
    }
    ghost var begun, rows1, at := lc.task, store.rows, clock.now;
    var known := t.plan.agent.resumeID != "" || e.b.session.resumeID != "";
    out := RunPlanTurn(lc, known, e);
    PlannerTurn(t, e, begun, old(store.rows), rows1, store.rows, old(clock.now), at, clock.now, lc.task);
  }

  method BeginWorkLifecycle(store: Store, clock: Clock, t: Task, b: BeginInput) returns (lc: WorkLifecycle)
    requires t.id != "" && t.status != Unset
    modifies store, clock
    ensures fresh(lc) && lc.store == store && lc.clock == clock && !lc.closed && lc.task.id == t.id
    ensures old(clock.now) <= clock.now && lc.task == Begun(Pick(WorkPhase, t), t, b, clock.now)
    ensures var ev := if t.work.agent.resumeID != "" then WorkResume else WorkRestart;
      store.notices == if Legal(t.status, ev) then old(store.notices) + [Notice(Transition(t.status, ev, Working), lc.task)]
                       else old(store.notices)
    ensures OtherPhasesSame(WorkPhase, t, lc.task) && lc.task.Session(WorkPhase) == Known(t.Session(WorkPhase), b)
    ensures Abs(lc.task) == Abs(t).(
      status := if BeginLegal(Pick(WorkPhase, t), t) then Working else t.status,
      work := Abs(t).work || b.session.resumeID != "")
    ensures store.rows == if BeginLegal(Pick(WorkPhase, t), t) then old(store.rows)[t.id := lc.task] else old(store.rows)
  {
    if t.work.agent.resumeID != "" {
      lc := new WorkLifecycle.BeginWorkResume(store, clock, t, b, true);
    } else {
      lc := new WorkLifecycle.BeginWorkRestart(store, clock, t, b, true);
    }
    BegunAbs(Pick(WorkPhase, t), t, b, clock.now);
  }

  method RunWorkTurn(lc: WorkLifecycle, known: bool, e: Turn) returns (out: Out)
    requires !lc.closed && lc.task.id != "" && lc.task.status != Unset
    modifies lc, lc.store, lc.clock
    ensures out == Reported(e)
    ensures TurnLeft(old(lc.store.rows), lc.store.rows, old(lc.task), WorkFinish(e), !known && !e.startErr && e.minted != "", e.minted)
    ensures old(lc.clock.now) < lc.task.work.endAt <= lc.clock.now
    ensures lc.task == Finished(if !known && !e.startErr && e.minted != "" then old(lc.task).WithSession(WorkPhase, e.minted) else old(lc.task),
                                WorkFinish(e), lc.task.work.endAt, lc.clock.now)
    ensures old(lc.task).status == ActiveStatus(WorkPhase) ==>
      old(lc.task).id in lc.store.rows && lc.store.rows[old(lc.task).id] == lc.task
  {
    ghost var begun, rows0 := lc.task, lc.store.rows;
    if !e.startErr && !known {
      lc.RecordResumeSession(e.minted, true);
    }
    ghost var before, rows1 := lc.task, lc.store.rows;
    lc.Finish(e.startErr || e.waitErr, e.clarification, e.url, true);
    TurnRows(rows0, begun, e.minted, !known && !e.startErr && e.minted != "", WorkFinish(e), before,
             lc.task.work.endAt, lc.clock.now, rows1, lc.task, lc.store.rows);
    return if (e.startErr || e.waitErr) && !e.abort then Failing else Done;
  }

  lemma WorkTurnAbs(s: Snap, e: Turn, legal: bool, begun: Task, rows1: map<string, Task>, rows2: map<string, Task>)
    requires !e.early && begun.id in rows1 && s.status != Unset
    requires legal <==> Legal(s.status, if s.work then WorkResume else WorkRestart)
    requires begun.status == Working <==> legal
    requires Abs(begun) == s.(status := if legal then Working else s.status, work := s.work || e.b.session.resumeID != "")
    requires !legal ==> Abs(rows1[begun.id]) == s
    requires TurnLeft(rows1, rows2, begun, WorkFinish(e), begun.work.agent.resumeID == "" && !e.startErr && e.minted != "", e.minted)
    ensures begun.id in rows2 && Abs(rows2[begun.id]) == WorkerAfter(s, e).0
  {
  }

  /** Begin and turn together are the status-level account. */
  lemma WorkerAccount(t: Task, e: Turn, begun: Task, rows: map<string, Task>, rows1: map<string, Task>, rows2: map<string, Task>)
    requires Seated(rows, t.id) && rows[t.id] == t && !e.early && begun.id == t.id
    requires Abs(begun) == Abs(t).(
      status := if BeginLegal(Pick(WorkPhase, t), t) then Working else t.status,
      work := Abs(t).work || e.b.session.resumeID != "")
    requires rows1 == if BeginLegal(Pick(WorkPhase, t), t) then rows[t.id := begun] else rows
    requires TurnLeft(rows1, rows2, begun, WorkFinish(e), begun.work.agent.resumeID == "" && !e.startErr && e.minted != "", e.minted)
    ensures Seated(rows2, t.id) && Abs(rows2[t.id]) == WorkerAfter(Abs(t), e).0
  {
    ActiveIffLegal(WorkPhase, t, begun);
    WorkTurnAbs(Abs(t), e, BeginLegal(Pick(WorkPhase, t), t), begun, rows1, rows2);
  }

  /** And they stay within the row and the phase. */
  lemma WorkerTurn(t: Task, e: Turn, begun: Task, rows: map<string, Task>, rows1: map<string, Task>, rows2: map<string, Task>,
                    from: Time, at: Time, to: Time, final: Task)
    requires Seated(rows, t.id) && rows[t.id] == t && !e.early && begun.id == t.id && OtherPhasesSame(WorkPhase, t, begun)
    requires begun.Session(WorkPhase) == Known(t.Session(WorkPhase), e.b)
    requires Abs(begun) == Abs(t).(
      status := if BeginLegal(Pick(WorkPhase, t), t) then Working else t.status,
      work := Abs(t).work || e.b.session.resumeID != "")
    requires rows1 == if BeginLegal(Pick(WorkPhase, t), t) then rows[t.id := begun] else rows
    requires TurnLeft(rows1, rows2, begun, WorkFinish(e), begun.work.agent.resumeID == "" && !e.startErr && e.minted != "", e.minted)
    ensures Seated(rows2, t.id) && Abs(rows2[t.id]) == WorkerAfter(Abs(t), e).0 && PhaseOnly(WorkPhase, t.id, rows, rows2)
    requires from <= at < final.work.endAt <= to && begun == Begun(Pick(WorkPhase, t), t, e.b, at)
    requires final == Finished(if begun.Session(WorkPhase) == "" && !e.startErr && e.minted != ""
                               then begun.WithSession(WorkPhase, e.minted) else begun, WorkFinish(e), final.work.endAt, to)
    requires begun.status == ActiveStatus(WorkPhase) ==> t.id in rows2 && rows2[t.id] == final
    ensures TurnDone(WorkPhase, t, e, WorkFinish(e), from, to, rows2[t.id])
  {
    RanAt(t, Pick(WorkPhase, t), e, WorkFinish(e), from, at, final.work.endAt, to, begun, final);
    WorkerAccount(t, e, begun, rows, rows1, rows2);
    ActiveIffLegal(WorkPhase, t, begun);
    TurnApart(WorkPhase, t, begun, WorkFinish(e), e, BeginLegal(Pick(WorkPhase, t), t), rows, rows1, rows2);
  }

  method RunWorker(store: Store, clock: Clock, id: string, e: Turn) returns (out: Out)
    requires Seated(store.rows, id)
    modifies store, clock
    ensures Seated(store.rows, id)
    ensures (Abs(store.rows[id]), out) == WorkerAfter(Abs(old(store.rows)[id]), e)
    ensures PhaseOnly(WorkPhase, id, old(store.rows), store.rows)
    ensures e.early ==> store.rows == old(store.rows)
    ensures !e.early ==>
      TurnDone(WorkPhase, old(store.rows)[id], e, WorkFinish(e), old(clock.now), clock.now, store.rows[id])
  {
    if e.early {
      return if e.abort then Done else Failing;
    }
    var read := store.GetTask(id, true);
    var t := read.value;
    var lc := BeginWorkLifecycle(store, clock, t, e.b);
    ghost var begun, rows1, at := lc.task, store.rows, clock.now;
    var known := t.work.agent.resumeID != "" || e.b.session.resumeID != "";
    out := RunWorkTurn(lc, known, e);
    WorkerTurn(t, e, begun, old(store.rows), rows1, store.rows, old(clock.now), at, clock.now, lc.task);
  }

  // ----- The verifier, the guard and the finaliser -----

  /** A stored session means one resumed turn, otherwise the fix loop. */
  function VerifyKind(s: Snap): BeginKind { if s.verify then ResumeVerify else RestartVerify }

  function ReviewFinish(e: Review, r: FixLoop.LoopResult): FinishInput {
    FinishVerify(r.failed, e.clarification, r.outcome)
  }

  function VerifierAfter(s: Snap, e: Review, r: FixLoop.LoopResult): (Status, Out) {
    if e.early then (s.status, if e.abort then Done else Failing)
    else
      (if Legal(s.status, BeginEvent(VerifyKind(s)).value) then Destination(FinishEvent(ReviewFinish(e, r))) else s.status,
       if r.failed && !e.abort then Failing else Done)
  }

  /** The single interactive turn of a resumed verify. */
  function ResumeResult(session: string, a: FixLoop.Agents): FixLoop.LoopResult {
    FixLoop.LoopResult(
      if a.verify(0) == FixLoop.Verdict(true) then Success else NoRetries,
      !a.verify(0).Verdict?,
      [FixLoop.V(0, true, session)])
  }

  const NO_REVIEW := FixLoop.LoopResult(NoRetries, false, [])

  function IterationLimit(e: Review): int {
    if e.maxIterations <= 0 then FixLoop.DEFAULT_MAX_ITERATIONS else e.maxIterations
  }

  /** `r` is what the agents of a review make of it; `stored` tells whether a verify session was on the row. */
  ghost predicate ReviewResult(e: Review, stored: bool, r: FixLoop.LoopResult) {
    if e.early then r == NO_REVIEW
    else if stored then exists chat :: r == ResumeResult(chat, e.agents)
    else FixLoop.IsResult(e.b.session.resumeID, e.agents, IterationLimit(e), r)
  }

  /** The agents pass: at once when resumed, otherwise within the limit with every earlier FAIL fixed. */
  ghost predicate Passes(e: Review, stored: bool) {
    !e.early &&
    if stored then e.agents.verify(0) == FixLoop.Verdict(true)
    else exists k: nat :: FixLoop.PassesAt(e.agents, IterationLimit(e), k)
  }

  lemma ReviewPasses(e: Review, stored: bool, r: FixLoop.LoopResult)
    requires ReviewResult(e, stored, r)
    ensures r.outcome == Success <==> Passes(e, stored)
    ensures r.outcome == Success ==> !r.failed
  {
    if !e.early && !stored {
      FixLoop.SucceedsIffPasses(e.b.session.resumeID, e.agents, IterationLimit(e), r);
    }
  }

  /** The agents err: at once when resumed, otherwise before they pass or run out of turns. */
  ghost predicate Errs(e: Review, stored: bool) {
    if stored then !e.agents.verify(0).Verdict?
    else exists k: nat :: FixLoop.ErrsFirst(e.agents, IterationLimit(e), k)
  }

  lemma ReviewErrs(e: Review, stored: bool, r: FixLoop.LoopResult)
    requires ReviewResult(e, stored, r) && !e.early
    ensures r.failed <==> Errs(e, stored)
  {
    if !stored {
      FixLoop.FailsIffErrs(e.b.session.resumeID, e.agents, IterationLimit(e), r);
    }
  }

  lemma ResumedAbs(t: Task, b: BeginInput, now: Time)
    ensures var r := Begun(ResumeVerify, t, b, now);
      && r.id == t.id && r.status == (if Legal(t.status, VerifyResume) then Verifying else t.status)
      && OtherPhasesSame(VerifyPhase, t, r)
  {
    BeginFrame(ResumeVerify, t, b, now);
    PhasesApart(ResumeVerify, b, FinishVerify(false, false, Success), t, now, now);
    AppliedStatus(Prepared(ResumeVerify, t, b, now), VerifyResume, now);
  }

  /** The begin and finish writes of a resumed verify, folded. */
  lemma ResumeRows(t: Task, f: FinishInput, begun: Task, final: Task, endAt: Time, now: Time,
                   rows: map<string, Task>, rows1: map<string, Task>, rows2: map<string, Task>)
    requires f.FinishVerify? && t.id != "" && begun.id == t.id && OtherPhasesSame(VerifyPhase, t, begun)
    requires begun.status == if Legal(t.status, VerifyResume) then Verifying else t.status
    requires rows1 == Kept(rows, t.status, VerifyResume, begun, true)
    requires final == Finished(begun, f, endAt, now)
    requires rows2 == Kept(rows1, begun.status, FinishEvent(f), final, true)
    ensures if Legal(t.status, VerifyResume) then
        && t.id in rows2 && rows2[t.id].id == t.id && rows2[t.id].status == Destination(FinishEvent(f))
        && OtherPhasesSame(VerifyPhase, t, rows2[t.id]) && rows2 == rows[t.id := rows2[t.id]] && rows2[t.id] == final
      else rows2 == rows
  {
    FinishEdgeOf(begun.status, f);
    FinishedAbs(begun, f, endAt, now);
  }

  method RunVerifyResume(store: Store, clock: Clock, t: Task, e: Review) returns (r: FixLoop.LoopResult)
    requires Storable(t)
    modifies store, clock
    ensures r == ResumeResult(t.verify.agent.resumeID, e.agents)
    ensures Legal(t.status, VerifyResume) ==>
      && t.id in store.rows && store.rows[t.id].id == t.id
      && store.rows[t.id].status == Destination(FinishEvent(ReviewFinish(e, r)))
      && OtherPhasesSame(VerifyPhase, t, store.rows[t.id]) && store.rows == old(store.rows)[t.id := store.rows[t.id]]
      && exists at, end | old(clock.now) <= at < end <= clock.now ::
           store.rows[t.id] == Finished(Begun(ResumeVerify, t, e.b, at), ReviewFinish(e, r), end, clock.now)
    ensures !Legal(t.status, VerifyResume) ==> store.rows == old(store.rows)
  {
    var lc := new VerifyLifecycle.BeginVerifyResume(store, clock, t, e.b, true);
    ResumedAbs(t, e.b, clock.now);
    ghost var begun, rows1, at := lc.task, store.rows, clock.now;
    var turn := e.agents.verify(0);
    var runErr := !turn.Verdict?;
    var outcome := NoRetries;
    if !runErr && turn.pass {
      outcome := Success;
    }
    lc.Finish(outcome, runErr, e.clarification, true);
    r := FixLoop.LoopResult(outcome, runErr, [FixLoop.V(0, true, t.verify.agent.resumeID)]);
    ResumeRows(t, ReviewFinish(e, r), begun, lc.task, lc.task.verify.endAt, clock.now, old(store.rows), rows1, store.rows);
    assert lc.task == Finished(Begun(ResumeVerify, t, e.b, at), ReviewFinish(e, r), lc.task.verify.endAt, clock.now);
  }

  /** What a verify run leaves in the row: the finish's status, or the old one when the begin was illegal. */
  predicate VerifyLeft(rows: map<string, Task>, t: Task, begin: Event, f: FinishInput) {
    Seated(rows, t.id) && rows[t.id].status == if Legal(t.status, begin) then Destination(FinishEvent(f)) else t.status
  }

  method RunVerifyResumed(store: Store, clock: Clock, t: Task, e: Review) returns (r: FixLoop.LoopResult)
    requires Seated(store.rows, t.id) && store.rows[t.id] == t
    modifies store, clock
    ensures r == ResumeResult(t.verify.agent.resumeID, e.agents)
    ensures VerifyLeft(store.rows, t, VerifyResume, ReviewFinish(e, r))
    ensures PhaseOnly(VerifyPhase, t.id, old(store.rows), store.rows)
  {
    r := RunVerifyResume(store, clock, t, e);
    FinishEdgeOf(Verifying, ReviewFinish(e, r));
  }

  lemma FreshLeft(t: Task, final: Task, e: Review, r: FixLoop.LoopResult, before: map<string, Task>, after: map<string, Task>)
    requires Seated(before, t.id) && before[t.id] == t
    requires FixLoop.VerifyRunLeft(t, final, r, e.clarification, true, before, after)
    ensures VerifyLeft(after, t, VerifyBegin, ReviewFinish(e, r)) && PhaseOnly(VerifyPhase, t.id, before, after)
  {
    if Legal(t.status, VerifyBegin) {
      assert Storable(final) && after == before[t.id := final];
    }
  }

  method RunVerifyFresh(store: Store, clock: Clock, t: Task, e: Review) returns (r: FixLoop.LoopResult)
    requires Seated(store.rows, t.id) && store.rows[t.id] == t
    modifies store, clock
    ensures FixLoop.IsResult(e.b.session.resumeID, e.agents, IterationLimit(e), r)
    ensures VerifyLeft(store.rows, t, VerifyBegin, ReviewFinish(e, r))
    ensures PhaseOnly(VerifyPhase, t.id, old(store.rows), store.rows)
  {
    var final;
    r, final := FixLoop.RunVerify(store, clock, t, e.b, e.agents, e.maxIterations, e.clarification, true);
    FreshLeft(t, final, e, r, old(store.rows), store.rows);
  }

  /** The turns that reached the verifier are those of the result. */
  method RunVerifier(store: Store, clock: Clock, id: string, e: Review) returns (out: Out, r: FixLoop.LoopResult)
    requires Seated(store.rows, id)
    modifies store, clock
    ensures Seated(store.rows, id)
    ensures (store.rows[id].status, out) == VerifierAfter(Abs(old(store.rows)[id]), e, r)
    ensures e.early ==> store.rows == old(store.rows)
    ensures PhaseOnly(VerifyPhase, id, old(store.rows), store.rows)
    ensures ReviewResult(e, Abs(old(store.rows)[id]).verify, r)
  {
    if e.early {
      return if e.abort then Done else Failing, NO_REVIEW;
    }
    var read := store.GetTask(id, true);
    var t := read.value;
    if t.verify.agent.resumeID != "" {
      r := RunVerifyResumed(store, clock, t, e);
    } else {
      r := RunVerifyFresh(store, clock, t, e);
    }
    return if r.failed && !e.abort then Failing else Done, r;
  }

  /** Runs the verifier unless the stored row stopped at needs-clarification. */
  method GuardRun(store: Store, clock: Clock, id: string, e: Review) returns (out: Out, r: FixLoop.LoopResult)
    requires Seated(store.rows, id)
    modifies store, clock
    ensures Seated(store.rows, id)
    ensures old(store.rows)[id].status == NeedsClarification ==>
      out == Done && r == NO_REVIEW && store.rows == old(store.rows)
    ensures PhaseOnly(VerifyPhase, id, old(store.rows), store.rows)
    ensures old(store.rows)[id].status != NeedsClarification ==>
      && (store.rows[id].status, out) == VerifierAfter(Abs(old(store.rows)[id]), e, r)
      && ReviewResult(e, Abs(old(store.rows)[id]).verify, r)
  {
    var read := store.GetTask(id, true);
    if read.Some? && read.value.status == NeedsClarification {
      return Done, NO_REVIEW;
    }
    out, r := RunVerifier(store, clock, id, e);
  }

  /** A row still at verifying becomes failed; on every other status the edge is illegal and nothing happens. */
  method FinaliseVerifyFailIfStuck(store: Store, clock: Clock, id: string, readIo: bool, io: bool)
    modifies store, clock
    ensures id in old(store.rows) && readIo && old(store.rows)[id].status == Verifying ==>
      store.rows == Written(old(store.rows), old(store.rows)[id].(status := Failed), io)
    ensures !(id in old(store.rows) && readIo && old(store.rows)[id].status == Verifying) ==>
      store.rows == old(store.rows) && store.notices == old(store.notices)
  {
    var read := store.GetTask(id, readIo);
    if read.None? {
      return;
    }
    var _, _, _ := ApplyAndPersist(store, clock, read.value, VerifyStuck, io);
  }

  // ----- A whole run -----

  /** The status a list of sub-agents leaves; `r` is the verifier's result if it ran. */
  function SubsAfter(subs: seq<Sub>, s: Snap, w: World, r: FixLoop.LoopResult): (Status, Out) {
    if subs == [] then (s.status, Done)
    else match subs[0]
      case Planner =>
        var a := PlannerAfter(s, w.plan);
        if a.1 == Done then SubsAfter(subs[1..], a.0, w, r) else (a.0.status, a.1)
      case Worker =>
        var a := WorkerAfter(s, w.work);
        if a.1 == Done then SubsAfter(subs[1..], a.0, w, r) else (a.0.status, a.1)
      case Verifier => VerifierAfter(s, w.review, r)
      case GuardedVerifier =>
        if s.status == NeedsClarification then (NeedsClarification, Done) else VerifierAfter(s, w.review, r)
  }

  /** The verifier's turn comes: nothing before it failed, and a guard lets it run. */
  predicate Reviewed(subs: seq<Sub>, s: Snap, w: World) {
    if subs == [] then false
    else match subs[0]
      case Planner => var a := PlannerAfter(s, w.plan); a.1 == Done && Reviewed(subs[1..], a.0, w)
      case Worker => var a := WorkerAfter(s, w.work); a.1 == Done && Reviewed(subs[1..], a.0, w)
      case Verifier => true
      case GuardedVerifier => s.status != NeedsClarification
  }

  /** The result is the agents' when the verifier ran, and empty otherwise. */
  ghost predicate Tied(subs: seq<Sub>, s: Snap, w: World, r: FixLoop.LoopResult) {
    if Reviewed(subs, s, w) then ReviewResult(w.review, s.verify, r) else r == NO_REVIEW
  }

  /** A run that ends without an error with the row still at verifying turns it to failed. */
  function Finalised(a: (Status, Out)): (Status, Out) {
    if a == (Verifying, Done) then (Failed, Done) else a
  }

  function RunAfter(p: RunPhase, gated: bool, s: Snap, w: World, r: FixLoop.LoopResult): (Status, Out) {
    Finalised(SubsAfter(SubAgents(p, gated), s, w, r))
  }

  /** A verifier, guarded or not, only ever comes last. */
  predicate VerifierLast(subs: seq<Sub>) {
    forall i :: 0 <= i < |subs| - 1 ==> subs[i] == Planner || subs[i] == Worker
  }

  /** The sections of a row that none of the sub-agents is about. */
  ghost predicate SubsOnly(subs: seq<Sub>, id: string, before: map<string, Task>, after: map<string, Task>) {
    && id in before && id in after && after == before[id := after[id]]
    && (Planner !in subs ==> after[id].plan == before[id].plan)
    && (Worker !in subs ==> after[id].work == before[id].work)
    && (Verifier !in subs && GuardedVerifier !in subs ==> after[id].verify == before[id].verify)
  }

  /** One planner or worker of a run. */
  method RunAgent(store: Store, clock: Clock, id: string, sub: Sub, w: World) returns (out: Out)
    requires Seated(store.rows, id) && (sub == Planner || sub == Worker)
    modifies store, clock
    ensures Seated(store.rows, id)
    ensures (Abs(store.rows[id]), out) ==
      if sub == Planner then PlannerAfter(Abs(old(store.rows)[id]), w.plan) else WorkerAfter(Abs(old(store.rows)[id]), w.work)
    ensures PhaseOnly(if sub == Planner then PlanPhase else WorkPhase, id, old(store.rows), store.rows)
  {
    if sub == Planner {
      out := RunPlanner(store, clock, id, w.plan);
    } else {
      out := RunWorker(store, clock, id, w.work);
    }
  }

  method DriveSequential(store: Store, clock: Clock, id: string, subs: seq<Sub>, w: World)
    returns (out: Out, r: FixLoop.LoopResult)
    requires Seated(store.rows, id) && VerifierLast(subs)
    modifies store, clock
    ensures Seated(store.rows, id)
    ensures (store.rows[id].status, out) == SubsAfter(subs, Abs(old(store.rows)[id]), w, r)
    ensures SubsOnly(subs, id, old(store.rows), store.rows)
    ensures Tied(subs, Abs(old(store.rows)[id]), w, r)
    decreases |subs|
  {
    out, r := Done, NO_REVIEW;
    if subs == [] {
      return;
    }
    match subs[0] {
      case Planner => out := RunAgent(store, clock, id, Planner, w);
      case Worker => out := RunAgent(store, clock, id, Worker, w);
      case Verifier =>
        out, r := RunVerifier(store, clock, id, w.review);
        return;
      case GuardedVerifier =>
        out, r := GuardRun(store, clock, id, w.review);
        return;
    }
    if out == Done {
      out, r := DriveSequential(store, clock, id, subs[1..], w);
    }
  }

  /** A question from the worker of a from-work run leaves the verifier without a turn. */
  lemma QuestionSkipsReview(p: RunPhase, gated: bool, s: Snap, w: World)
    requires p == FromWork && WorkerAfter(s, w.work).0.status == NeedsClarification
    ensures !Reviewed(SubAgents(p, gated), s, w)
  {
    var subs := SubAgents(p, gated);
    assert subs[1..] == [GuardedVerifier];
    assert !Reviewed([GuardedVerifier], WorkerAfter(s, w.work).0, w);
  }

  /** The sections a run of this kind never touches: told by the kind of run, not by what it starts. */
  ghost predicate UntouchedSections(p: RunPhase, gated: bool, before: Task, after: Task) {
    && (p in {FromWork, WorkOnly, VerifyOnly} ==> after.plan == before.plan)
    && (p in {PlanOnly, VerifyOnly} || (p == Full && gated) ==> after.work == before.work)
    && (p in {PlanOnly, WorkOnly} || (p == Full && gated) ==> after.verify == before.verify)
  }

  /**
   * The runs of a single sub-agent end as that sub-agent does: a plan-only or gated full run as the
   * planner, a work-only run as the worker, a verify-only run as the verifier. A from-work run never
   * ends otherwise than its worker when that one failed or asked.
   */
  ghost predicate EndsAs(p: RunPhase, gated: bool, s: Snap, w: World, r: FixLoop.LoopResult, end: (Status, Out)) {
    && (p == PlanOnly || (p == Full && gated) ==>
          end == Finalised((PlannerAfter(s, w.plan).0.status, PlannerAfter(s, w.plan).1)) && r == NO_REVIEW)
    && (p == WorkOnly ==> end == Finalised((WorkerAfter(s, w.work).0.status, WorkerAfter(s, w.work).1)) && r == NO_REVIEW)
    && (p == VerifyOnly ==> end == Finalised(VerifierAfter(s, w.review, r)))
    && (p == FromWork ==>
          var a := WorkerAfter(s, w.work);
          && (a.1 != Done ==> end == (a.0.status, a.1) && r == NO_REVIEW)
          && (a.1 == Done && a.0.status == NeedsClarification ==> end == (NeedsClarification, Done) && r == NO_REVIEW))
    && (p == Full && PlannerAfter(s, w.plan).1 != Done ==>
          end == (PlannerAfter(s, w.plan).0.status, PlannerAfter(s, w.plan).1) && r == NO_REVIEW)
  }

  lemma RunEnds(p: RunPhase, gated: bool, s: Snap, w: World, r: FixLoop.LoopResult)
    requires Tied(SubAgents(p, gated), s, w, r)
    ensures EndsAs(p, gated, s, w, r, RunAfter(p, gated, s, w, r))
  {
    OneSub(s, w, r);
    FromWorkUnrolled(s, w, r);
    FullUnrolled(s, w, r);
    OneReviewed(s, w);
  }

  lemma SectionsByKind(p: RunPhase, gated: bool, id: string, before: map<string, Task>, after: map<string, Task>)
    requires SubsOnly(SubAgents(p, gated), id, before, after)
    ensures UntouchedSections(p, gated, before[id], after[id])
  {
  }

  /** The sub-agents of a kind of run, in order. */
  method DrivePhase(store: Store, clock: Clock, id: string, p: RunPhase, gated: bool, w: World)
    returns (out: Out, r: FixLoop.LoopResult)
    requires Seated(store.rows, id)
    modifies store, clock
    ensures Seated(store.rows, id)
    ensures (store.rows[id].status, out) == SubsAfter(SubAgents(p, gated), Abs(old(store.rows)[id]), w, r)
    ensures Tied(SubAgents(p, gated), Abs(old(store.rows)[id]), w, r)
    ensures store.rows == old(store.rows)[id := store.rows[id]]
    ensures UntouchedSections(p, gated, old(store.rows)[id], store.rows[id])
  {
    out, r := DriveSequential(store, clock, id, SubAgents(p, gated), w);
    SectionsByKind(p, gated, id, old(store.rows), store.rows);
  }

  /** The sub-agents in order, then, unless one failed, the stuck finaliser. */
  method RunForTask(store: Store, clock: Clock, id: string, p: RunPhase, gated: bool, w: World)
    returns (out: Out, r: FixLoop.LoopResult)
    requires Seated(store.rows, id)
    modifies store, clock
    ensures Seated(store.rows, id)
    ensures (store.rows[id].status, out) == RunAfter(p, gated, Abs(old(store.rows)[id]), w, r)
    ensures Tied(SubAgents(p, gated), Abs(old(store.rows)[id]), w, r)
    ensures store.rows == old(store.rows)[id := store.rows[id]]
    ensures UntouchedSections(p, gated, old(store.rows)[id], store.rows[id])
    ensures EndsAs(p, gated, Abs(old(store.rows)[id]), w, r, (store.rows[id].status, out))
    ensures out == Done ==> store.rows[id].status != Verifying
    ensures p == FromWork && WorkerAfter(Abs(old(store.rows)[id]), w.work).0.status == NeedsClarification ==> r.trace == []
  {
    ghost var before := Abs(store.rows[id]);
    if p == FromWork && WorkerAfter(before, w.work).0.status == NeedsClarification {
      QuestionSkipsReview(p, gated, before, w);
    }
    out, r := DrivePhase(store, clock, id, p, gated, w);
    RunEnds(p, gated, before, w, r);
    if out != Done {
      return;
    }
    FinaliseVerifyFailIfStuck(store, clock, id, true, true);
  }

  /**
   * A plan-only or gated run from planning, after a clean turn, leaves the row waiting for an answer,
   * waiting for approval, or planned, by the question and the setting alone; an error leaves it at help.
   */
  lemma PlanRunEnds(p: RunPhase, gated: bool, s: Snap, w: World, r: FixLoop.LoopResult, end: (Status, Out))
    requires (p == PlanOnly || (p == Full && gated)) && EndsAs(p, gated, s, w, r, end)
    requires s.status == Planning && !w.plan.early
    ensures end == if w.plan.startErr || w.plan.waitErr then (Help, Failing)
                   else if w.plan.clarification then (NeedsClarification, Done)
                   else if w.plan.approval then (PlanPendingApproval, Done) else (PlanDone, Done)
  {
    FinishOutcome(PlanFinish(w.plan));
  }

  /** A work-only run from plan-done or working, by session, error, abort and question. */
  lemma WorkRunEnds(s: Snap, w: World, r: FixLoop.LoopResult, end: (Status, Out))
    requires EndsAs(WorkOnly, false, s, w, r, end) && !w.work.early
    requires s.status == Working || (s.status == PlanDone && !s.work)
    ensures var err := w.work.startErr || w.work.waitErr;
      end == (if err then Help else if w.work.clarification then NeedsClarification else WorkDone,
              if err && !w.work.abort then Failing else Done)
  {
    FinishOutcome(WorkFinish(w.work));
  }

  lemma OneReviewed(s: Snap, w: World)
    ensures !Reviewed([Planner], s, w) && !Reviewed([Worker], s, w) && Reviewed([Verifier], s, w)
  {
    assert [Planner][1..] == [] && [Worker][1..] == [];
  }

  lemma FromWorkUnrolled(s: Snap, w: World, r: FixLoop.LoopResult)
    ensures SubAgents(FromWork, false) == [Worker, GuardedVerifier]
    ensures var a := WorkerAfter(s, w.work);
      SubsAfter([Worker, GuardedVerifier], s, w, r) ==
        if a.1 != Done then (a.0.status, a.1)
        else if a.0.status == NeedsClarification then (NeedsClarification, Done)
        else VerifierAfter(a.0, w.review, r)
    ensures var a := WorkerAfter(s, w.work);
      Reviewed([Worker, GuardedVerifier], s, w) <==> a.1 == Done && a.0.status != NeedsClarification
  {
    var subs := [Worker, GuardedVerifier];
    assert subs[1..] == [GuardedVerifier];
    var a := WorkerAfter(s, w.work);
    assert Reviewed([GuardedVerifier], a.0, w) <==> a.0.status != NeedsClarification;
    assert SubsAfter([GuardedVerifier], a.0, w, r) ==
      if a.0.status == NeedsClarification then (NeedsClarification, Done) else VerifierAfter(a.0, w.review, r);
  }

  /**
   * A worker that stops with a question ends a from-work run: the row waits for
   * clarification whatever the verifier would have said.
   */
  lemma ClarificationEndsRun(s: Snap, w: World, r: FixLoop.LoopResult)
    requires WorkerAfter(s, w.work).0.status == NeedsClarification && WorkerAfter(s, w.work).1 == Done
    ensures RunAfter(FromWork, false, s, w, r) == (NeedsClarification, Done)
  {
    FromWorkUnrolled(s, w, r);
  }

  /** The worker stops with a question exactly when its begin is legal and its clean turn left one. */
  lemma WorkerAsks(s: Snap, t: Turn)
    requires !t.early && s.status != NeedsClarification
    ensures WorkerAfter(s, t).0.status == NeedsClarification <==>
      Legal(s.status, if s.work then WorkResume else WorkRestart) && !ErrOf(t) && t.clarification
  {
    FinishOutcome(WorkFinish(t));
  }

  // ----- When a run completes the task -----

  /**
   * A review leaves the row completed without an error: a begin with an edge needs agents that pass
   * without a question; otherwise the row must be completed already, and the agents must not err
   * unless that reads as an abort.
   */
  ghost predicate ReviewEnds(s: Snap, e: Review) {
    if !e.early && Legal(s.status, BeginEvent(VerifyKind(s)).value) then !e.clarification && Passes(e, s.verify)
    else s.status == Completed && (e.abort || (!e.early && !Errs(e, s.verify)))
  }

  lemma ReviewCompletes(s: Snap, e: Review, r: FixLoop.LoopResult)
    requires ReviewResult(e, s.verify, r)
    ensures VerifierAfter(s, e, r) == (Completed, Done) <==> ReviewEnds(s, e)
  {
    ReviewPasses(e, s.verify, r);
    FinishOutcome(ReviewFinish(e, r));
    if !e.early {
      ReviewErrs(e, s.verify, r);
    }
  }

  /** The work does not fail, leaves no question, and the review ends well on what it leaves. */
  ghost predicate WorkThenReview(s: Snap, w: World) {
    var a := WorkerAfter(s, w.work);
    a.1 == Done && a.0.status != NeedsClarification && ReviewEnds(a.0, w.review)
  }

  /** The runs that end with a completed row and no error, told from the row's start and the outside world alone. */
  ghost predicate Completes(p: RunPhase, gated: bool, s: Snap, w: World) {
    match p
    case PlanOnly => false
    case WorkOnly => s.status == Completed && w.work.early && w.work.abort
    case VerifyOnly => ReviewEnds(s, w.review)
    case FromWork => WorkThenReview(s, w)
    case Full => !gated && PlannerAfter(s, w.plan).1 == Done && WorkThenReview(PlannerAfter(s, w.plan).0, w)
  }

  lemma PlannerNeverCompletes(s: Snap, t: Turn)
    ensures PlannerAfter(s, t).1 == Done ==> PlannerAfter(s, t).0.status != Completed
  {
    FinishOutcome(PlanFinish(t));
  }

  lemma WorkerCompletes(s: Snap, t: Turn)
    ensures WorkerAfter(s, t).1 == Done && WorkerAfter(s, t).0.status == Completed <==> s.status == Completed && t.early && t.abort
  {
    FinishOutcome(WorkFinish(t));
  }

  lemma WorkRunCompletes(s: Snap, w: World, r: FixLoop.LoopResult)
    requires Tied([Worker, GuardedVerifier], s, w, r)
    ensures SubsAfter([Worker, GuardedVerifier], s, w, r) == (Completed, Done) <==> WorkThenReview(s, w)
  {
    FromWorkUnrolled(s, w, r);
    if Reviewed([Worker, GuardedVerifier], s, w) {
      WorkKeepsVerify(s, w.work);
      ReviewCompletes(WorkerAfter(s, w.work).0, w.review, r);
    }
  }

  lemma WorkKeepsVerify(s: Snap, t: Turn)
    ensures WorkerAfter(s, t).0.verify == s.verify
  {
  }

  lemma OneSub(s: Snap, w: World, r: FixLoop.LoopResult)
    ensures SubsAfter([Planner], s, w, r) == (PlannerAfter(s, w.plan).0.status, PlannerAfter(s, w.plan).1)
    ensures SubsAfter([Worker], s, w, r) == (WorkerAfter(s, w.work).0.status, WorkerAfter(s, w.work).1)
  {
    assert [Planner][1..] == [] && [Worker][1..] == [];
  }

  lemma FullUnrolled(s: Snap, w: World, r: FixLoop.LoopResult)
    ensures SubAgents(Full, false)[1..] == [Worker, GuardedVerifier]
    ensures var a := PlannerAfter(s, w.plan);
      && a.0.verify == s.verify
      && SubsAfter(SubAgents(Full, false), s, w, r) ==
           (if a.1 == Done then SubsAfter([Worker, GuardedVerifier], a.0, w, r) else (a.0.status, a.1))
      && (Reviewed(SubAgents(Full, false), s, w) <==> a.1 == Done && Reviewed([Worker, GuardedVerifier], a.0, w))
  {
    assert [Planner, Worker, GuardedVerifier][1..] == [Worker, GuardedVerifier];
  }

  /**
   * Every kind of run from every row: it ends with a completed row and no error exactly when the
   * row's start and the agents' behaviour say so, whichever way the result came about.
   */
  lemma RunCompletes(p: RunPhase, gated: bool, s: Snap, w: World, r: FixLoop.LoopResult)
    requires Tied(SubAgents(p, gated), s, w, r)
    ensures RunAfter(p, gated, s, w, r) == (Completed, Done) <==> Completes(p, gated, s, w)
  {
    match p {
      case VerifyOnly => ReviewCompletes(s, w.review, r);
      case WorkOnly =>
        WorkerCompletes(s, w.work);
        OneSub(s, w, r);
      case PlanOnly =>
        PlannerNeverCompletes(s, w.plan);
        OneSub(s, w, r);
      case FromWork => WorkRunCompletes(s, w, r);
      case Full =>
        if gated {
          PlannerNeverCompletes(s, w.plan);
          OneSub(s, w, r);
        } else {
          FullUnrolled(s, w, r);
          if PlannerAfter(s, w.plan).1 == Done {
            WorkRunCompletes(PlannerAfter(s, w.plan).0, w, r);
          }
        }
    }
  }

  /** The work before the review: its result, and the status it leaves a planned row at. */
  lemma WorkFromPlanned(s: Snap, t: Turn)
    requires s.status == PlanDone
    ensures var a := WorkerAfter(s, t);
      && a.0.verify == s.verify
      && a.1 == (if t.abort || !(t.early || ErrOf(t)) then Done else Failing)
      && a.0.status == if t.early || s.work then PlanDone else if ErrOf(t) then Help
                       else if t.clarification then NeedsClarification else WorkDone
  {
  }

  /** The work lets a passing review complete a planned row. */
  predicate WorkLets(s: Snap, t: Turn) {
    if t.early then t.abort
    else if s.work then !ErrOf(t) || t.abort
    else if ErrOf(t) then t.abort && s.verify
    else !t.clarification && !s.verify
  }

  /** Which statuses the work leaves can be reviewed, by session. */
  lemma ReviewEdges(s: Snap)
    requires s.status in {PlanDone, WorkDone, Help}
    ensures Legal(s.status, BeginEvent(VerifyKind(s)).value) <==>
      s.status == PlanDone || (if s.verify then s.status == Help else s.status == WorkDone)
  {
  }

  lemma PlannedThenReview(s: Snap, w: World)
    requires s.status == PlanDone
    ensures WorkThenReview(s, w) <==> WorkLets(s, w.work) && !w.review.clarification && Passes(w.review, s.verify)
  {
    WorkFromPlanned(s, w.work);
    if WorkerAfter(s, w.work).0.status != NeedsClarification {
      ReviewEdges(WorkerAfter(s, w.work).0);
    }
  }

  /**
   * From plan-done, a from-work run completes the task exactly when the agents pass without a
   * question and the work lets them: an old work session has no resume edge, so the work leaves no
   * mark at all; fresh work must end cleanly without an old verify session on the row; and after an
   * aborted turn only an old verify session leads on.
   */
  lemma FromWorkCompletes(s: Snap, w: World, r: FixLoop.LoopResult)
    requires s.status == PlanDone && Tied(SubAgents(FromWork, false), s, w, r)
    ensures RunAfter(FromWork, false, s, w, r) == (Completed, Done) <==>
      WorkLets(s, w.work) && !w.review.clarification && Passes(w.review, s.verify)
  {
    RunCompletes(FromWork, false, s, w, r);
    PlannedThenReview(s, w);
  }

  /** The planner's part of a full run from planning: what it leaves, and that only an error ends the run. */
  lemma PlanFromPlanning(s: Snap, t: Turn)
    requires s.status == Planning
    ensures var a := PlannerAfter(s, t);
      && a.0.work == s.work && a.0.verify == s.verify
      && (a.1 == Done <==> !t.early && !ErrOf(t))
      && (a.1 == Done ==> a.0.status == if t.clarification then NeedsClarification
                                         else if t.approval then PlanPendingApproval else PlanDone)
  {
  }

  /** A full run of a row that was never worked or verified completes it exactly when every phase ends cleanly. */
  lemma FreshFullCompletes(s: Snap, w: World, r: FixLoop.LoopResult)
    requires s.status == Planning && !s.work && !s.verify && Tied(SubAgents(Full, false), s, w, r)
    ensures RunAfter(Full, false, s, w, r) == (Completed, Done) <==>
      && !w.plan.early && !ErrOf(w.plan) && !w.plan.clarification && !w.plan.approval
      && (if w.work.early then w.work.abort else !ErrOf(w.work) && !w.work.clarification)
      && !w.review.clarification && Passes(w.review, false)
  {
    RunCompletes(Full, false, s, w, r);
    PlanFromPlanning(s, w.plan);
    var a := PlannerAfter(s, w.plan).0;
    if a.status == PlanDone {
      PlannedThenReview(a, w);
    }
  }

  /** The work after a question: without an old session it has no edge and the row goes on waiting. */
  lemma WorkFromQuestion(s: Snap, t: Turn)
    requires s.status == NeedsClarification
    ensures var a := WorkerAfter(s, t);
      && a.0.verify == s.verify
      && a.1 == (if t.abort || !(t.early || ErrOf(t)) then Done else Failing)
      && a.0.status == if t.early || !s.work || (!ErrOf(t) && t.clarification) then NeedsClarification
                       else if ErrOf(t) then Help else WorkDone
  {
  }

  lemma QuestionThenReview(s: Snap, w: World)
    requires s.status == NeedsClarification
    ensures WorkThenReview(s, w) <==>
      && s.work && !w.work.early
      && (if ErrOf(w.work) then w.work.abort && s.verify else !w.work.clarification && !s.verify)
      && !w.review.clarification && Passes(w.review, s.verify)
  {
    WorkFromQuestion(s, w.work);
  }

  /**
   * Only the verifier is guarded: after a planner's question the worker still runs, and with an old
   * work session it resumes from needs-clarification, so such a run can complete the row.
   */
  lemma QuestionedFullCompletes(s: Snap, w: World, r: FixLoop.LoopResult)
    requires s.status == Planning && Tied(SubAgents(Full, false), s, w, r)
    requires !w.plan.early && !ErrOf(w.plan) && w.plan.clarification
    ensures RunAfter(Full, false, s, w, r) == (Completed, Done) <==>
      && s.work && !w.work.early
      && (if ErrOf(w.work) then w.work.abort && s.verify else !w.work.clarification && !s.verify)
      && !w.review.clarification && Passes(w.review, s.verify)
  {
    RunCompletes(Full, false, s, w, r);
    PlanFromPlanning(s, w.plan);
    QuestionThenReview(PlannerAfter(s, w.plan).0, w);
  }

  /** Agents that never pass never complete the row. */
  lemma FailingReviewNeverCompletes(s: Snap, w: World, r: FixLoop.LoopResult)
    requires s.status == PlanDone && Tied(SubAgents(FromWork, false), s, w, r)
    requires forall i: nat :: w.review.agents.verify(i) != FixLoop.Verdict(true)
    ensures RunAfter(FromWork, false, s, w, r) != (Completed, Done)
  {
    FromWorkCompletes(s, w, r);
  }

  /** A planned row with an old work session completes although its work turn left no trace on the row. */
  lemma OldSessionCompletes(w: World, r: FixLoop.LoopResult)
    requires !w.work.early && !ErrOf(w.work) && !w.review.early && !w.review.clarification
    requires w.review.agents.verify(0) == FixLoop.Verdict(true)
    requires Tied(SubAgents(FromWork, false), Snap(PlanDone, false, true, false), w, r)
    ensures var s := Snap(PlanDone, false, true, false);
      WorkerAfter(s, w.work).0 == s && RunAfter(FromWork, false, s, w, r) == (Completed, Done)
  {
    assert FixLoop.PassesAt(w.review.agents, IterationLimit(w.review), 0);
    FromWorkCompletes(Snap(PlanDone, false, true, false), w, r);
  }
}
