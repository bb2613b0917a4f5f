/** The three phase lifecycles: the begin, record and finish writes around one agent run. */
module Lifecycle {
  import opened Common
  import opened Fsm
  import opened TaskRow

  // ----- What each write does to a row -----

  datatype BeginKind =
    | NewPlan | RestartPlan | ResumePlan | ExistingPlan
    | NewWork | RestartWork | ResumeWork
    | RestartVerify | ResumeVerify

  /** `worktree` is the name minted for rows that have none yet; `log` the per-task log path. */
  datatype BeginInput = BeginInput(session: AgentSession, log: string, worktree: string)

  function BeginPhase(k: BeginKind): Phase {
    match k
    case NewPlan | RestartPlan | ResumePlan | ExistingPlan => PlanPhase
    case NewWork | RestartWork | ResumeWork => WorkPhase
    case RestartVerify | ResumeVerify => VerifyPhase
  }

  /** The event a begin fires; adopting a row already at planning fires none. */
  function BeginEvent(k: BeginKind): Option<Event> {
    match k
    case NewPlan => Some(PlanBegin)
    case RestartPlan => Some(PlanRestart)
    case ResumePlan => Some(PlanResume)
    case ExistingPlan => None
    case NewWork => Some(WorkBegin)
    case RestartWork => Some(WorkRestart)
    case ResumeWork => Some(WorkResume)
    case RestartVerify => Some(VerifyBegin)
    case ResumeVerify => Some(VerifyResume)
  }

  function Filled(name: string, minted: string): string { if name == "" then minted else name }

  function FirstBegin(s: Section, now: Time): Time { if s.beginAt == 0 then now else s.beginAt }

  /** The edits a begin makes before its event is applied. */
  function Prepared(k: BeginKind, t: Task, b: BeginInput, now: Time): Task {
    match k
    case NewPlan => t.(plan := Section(b.session, now, 0), agentLogPath := b.log)
    case RestartPlan =>
      t.(plan := Section(b.session, FirstBegin(t.plan, now), 0), doneAt := 0, agentLogPath := b.log)
    case ResumePlan =>
      t.(plan := Section(b.session.(resumeID := t.plan.agent.resumeID), FirstBegin(t.plan, now), 0),
         doneAt := 0, agentLogPath := b.log)
    case ExistingPlan =>
      t.(plan := Section(b.session, FirstBegin(t.plan, now), t.plan.endAt), agentLogPath := b.log)
    case NewWork =>
      t.(status := PlanDone, work := Section(b.session, now, 0),
         worktree := Filled(t.worktree, b.worktree), agentLogPath := b.log)
    case RestartWork =>
      t.(work := Section(b.session, now, 0), doneAt := 0,
         worktree := Filled(t.worktree, b.worktree), agentLogPath := b.log)
    case ResumeWork =>
      t.(work := Section(t.work.agent, FirstBegin(t.work, now), 0), doneAt := 0, agentLogPath := b.log)
    case RestartVerify =>
      t.(verify := Section(b.session, now, 0), doneAt := 0, agentLogPath := b.log)
    case ResumeVerify =>
      t.(verify := Section(t.verify.agent, FirstBegin(t.verify, now), 0), doneAt := 0, agentLogPath := b.log)
  }

  /** The status a begin's event is applied to. */
  function BeginFrom(k: BeginKind, t: Task): Status { if k == NewWork then PlanDone else t.status }

  /** A begin whose edge exists; adopting a planning row needs the row to be at planning. */
  predicate BeginLegal(k: BeginKind, t: Task) {
    match BeginEvent(k)
    case None => t.status == Planning
    case Some(e) => Legal(BeginFrom(k, t), e)
  }

  function Begun(k: BeginKind, t: Task, b: BeginInput, now: Time): Task {
    match BeginEvent(k)
    case None => Prepared(k, t, b, now)
    case Some(e) => Applied(Prepared(k, t, b, now), e, now)
  }

  datatype VerifyOutcome = Success | NoRetries

  /** Everything a finish looks at, per phase. `approval` is the project setting. */
  datatype FinishInput =
    | FinishPlan(runErr: bool, clarification: bool, approval: bool, summary: string)
    | FinishWork(runErr: bool, clarification: bool, detectedURL: string)
    | FinishVerify(runErr: bool, clarification: bool, outcome: VerifyOutcome)
  {
    function Phase(): Phase {
      match this case FinishPlan(_, _, _, _) => PlanPhase case FinishWork(_, _, _) => WorkPhase case FinishVerify(_, _, _) => VerifyPhase
    }
  }

  /** A run error wins over clarification.md, which wins over the phase's own outcome. */
  function FinishEvent(f: FinishInput): Event {
    match f
    case FinishPlan(runErr, clar, approval, _) =>
      if runErr then PlanError else if clar then PlanNeedsClarification
      else if approval then PlanAwaitApproval else PlanDoneEv
    case FinishWork(runErr, clar, _) =>
      if runErr then WorkError else if clar then WorkNeedsClarification else WorkDoneEv
    case FinishVerify(runErr, clar, outcome) =>
      if runErr then VerifyError else if clar then VerifyNeedsClarification
      else if outcome == Success then VerifyPass else VerifyFail
  }

  /** The field edits of a finish other than the end time. */
  function FinishEdits(t: Task, f: FinishInput): Task {
    match f
    case FinishPlan(runErr, clar, _, summary) => if runErr || clar then t else t.(summary := summary)
    case FinishWork(_, _, url) => t.(pullRequestURL := Filled(t.pullRequestURL, url))
    case FinishVerify(_, _, _) => t
  }

  function Finished(t: Task, f: FinishInput, endAt: Time, now: Time): Task {
    Applied(FinishEdits(t.WithEndAt(f.Phase(), endAt), f), FinishEvent(f), now)
  }

  predicate IsResume(k: BeginKind) { k in {ResumePlan, ResumeWork, ResumeVerify} }

  /** The begins of a section that starts afresh; the others keep a begin time that is there. */
  predicate StartsOver(k: BeginKind) { k in {NewPlan, NewWork, RestartWork, RestartVerify} }

  lemma PreparedStatus(k: BeginKind, t: Task, b: BeginInput, now: Time)
    ensures Prepared(k, t, b, now).status == BeginFrom(k, t)
  {
  }

  lemma BeginEventLeads(k: BeginKind)
    ensures BeginEvent(k).Some? ==> Destination(BeginEvent(k).value) in {Planning, Working, Verifying}
    ensures k == NewWork ==> BeginEvent(k) == Some(WorkBegin) && Legal(PlanDone, WorkBegin)
  {
  }

  /** A begin's event moves the prepared row's status and no more. */
  lemma BegunPrepared(k: BeginKind, t: Task, b: BeginInput, now: Time)
    ensures var r := Begun(k, t, b, now);
      && r.(status := Prepared(k, t, b, now).status) == Prepared(k, t, b, now)
      && r.status == match BeginEvent(k)
           case None => t.status
           case Some(e) => if BeginLegal(k, t) then Destination(e) else t.status
  {
    PreparedStatus(k, t, b, now);
    BeginEventLeads(k);
    match BeginEvent(k) {
      case None =>
      case Some(e) => AppliedStatus(Prepared(k, t, b, now), e, now);
    }
  }

  lemma PreparedSection(k: BeginKind, t: Task, b: BeginInput, now: Time)
    ensures var p, r := BeginPhase(k), Prepared(k, t, b, now);
      && (forall q: Phase :: q != p ==> r.SectionOf(q) == t.SectionOf(q))
      && r.SectionOf(p) == Section(
           if k in {ResumeWork, ResumeVerify} then t.SectionOf(p).agent
           else if k == ResumePlan then b.session.(resumeID := t.Session(p)) else b.session,
           if StartsOver(k) || t.SectionOf(p).beginAt == 0 then now else t.SectionOf(p).beginAt,
           if k == ExistingPlan then t.EndAt(p) else 0)
  {
  }

  lemma PreparedRest(k: BeginKind, t: Task, b: BeginInput, now: Time)
    ensures var r := Prepared(k, t, b, now);
      && r.id == t.id && r.summary == t.summary && r.linearIssue == t.linearIssue
      && r.pullRequestURL == t.pullRequestURL && r.agentLogPath == b.log
      && r.worktree == (if t.worktree == "" && k in {NewWork, RestartWork} then b.worktree else t.worktree)
      && r.doneAt == (if k in {NewPlan, NewWork, ExistingPlan} then t.doneAt else 0)
  {
  }

  /**
   * Field by field, what any begin does to a row. Its own section gets the caller's agent, except
   * that a resume keeps the stored session (and, but for the planner, the stored agent), a begin
   * time, and no end time unless the row is adopted as it is. Of the rest only the status, the done
   * time, the log path and a missing worktree name can change.
   */
  lemma BeginFrame(k: BeginKind, t: Task, b: BeginInput, now: Time)
    ensures var p, r := BeginPhase(k), Begun(k, t, b, now);
      && (forall q: Phase :: q != p ==> r.SectionOf(q) == t.SectionOf(q))
      && r.Session(p) == (if IsResume(k) then t.Session(p) else b.session.resumeID)
      && r.SectionOf(p).agent.(resumeID := "") ==
           (if k in {ResumeWork, ResumeVerify} then t.SectionOf(p).agent else b.session).(resumeID := "")
      && r.SectionOf(p).beginAt == (if StartsOver(k) || t.SectionOf(p).beginAt == 0 then now else t.SectionOf(p).beginAt)
      && r.EndAt(p) == (if k == ExistingPlan then t.EndAt(p) else 0)
    ensures var r := Begun(k, t, b, now);
      && r.id == t.id && r.summary == t.summary && r.linearIssue == t.linearIssue
      && r.pullRequestURL == t.pullRequestURL && r.agentLogPath == b.log
      && r.worktree == (if t.worktree == "" && k in {NewWork, RestartWork} then b.worktree else t.worktree)
      && r.doneAt == (if k in {NewPlan, NewWork, ExistingPlan} then t.doneAt else 0)
    ensures var r := Begun(k, t, b, now);
      r.status == match BeginEvent(k)
        case None => t.status
        case Some(e) => if BeginLegal(k, t) then Destination(e) else t.status
  {
    var p, r, q := BeginPhase(k), Begun(k, t, b, now), Prepared(k, t, b, now);
    BegunPrepared(k, t, b, now);
    PreparedSection(k, t, b, now);
    PreparedRest(k, t, b, now);
    SameSections(r, q);
  }

  /** A begin and a finish leave the other phases' sections alone. */
  lemma PhasesApart(k: BeginKind, b: BeginInput, f: FinishInput, t: Task, at: Time, now: Time)
    ensures OtherPhasesSame(BeginPhase(k), t, Begun(k, t, b, now))
    ensures OtherPhasesSame(f.Phase(), t, Finished(t, f, at, now))
  {
    BeginFrame(k, t, b, now);
    FinishFields(t, f, at, now);
    var r, u := Begun(k, t, b, now), Finished(t, f, at, now);
    assert r.SectionOf(PlanPhase) == r.plan && r.SectionOf(WorkPhase) == r.work && r.SectionOf(VerifyPhase) == r.verify;
    assert u.SectionOf(PlanPhase) == u.plan && u.SectionOf(WorkPhase) == u.work && u.SectionOf(VerifyPhase) == u.verify;
  }

  lemma SameSections(r: Task, q: Task)
    requires r.(status := q.status) == q
    ensures forall p: Phase :: r.SectionOf(p) == q.SectionOf(p)
    ensures r.id == q.id && r.summary == q.summary && r.linearIssue == q.linearIssue && r.doneAt == q.doneAt
    ensures r.pullRequestURL == q.pullRequestURL && r.agentLogPath == q.agentLogPath && r.worktree == q.worktree
  {
  }

  /** A run error always wins, a question comes next, and only then does the phase's own outcome count. */
  lemma FinishOutcome(f: FinishInput)
    ensures Destination(FinishEvent(f)) == Help <==> f.runErr
    ensures Destination(FinishEvent(f)) == NeedsClarification <==> !f.runErr && f.clarification
    ensures Destination(FinishEvent(f)) == Completed <==> f.FinishVerify? && !f.runErr && !f.clarification && f.outcome == Success
    ensures Destination(FinishEvent(f)) == Failed <==> f.FinishVerify? && !f.runErr && !f.clarification && f.outcome == NoRetries
    ensures Destination(FinishEvent(f)) == PlanPendingApproval <==> f.FinishPlan? && !f.runErr && !f.clarification && f.approval
    ensures Destination(FinishEvent(f)) == PlanDone <==> f.FinishPlan? && !f.runErr && !f.clarification && !f.approval
    ensures Destination(FinishEvent(f)) == WorkDone <==> f.FinishWork? && !f.runErr && !f.clarification
    ensures FinishEvent(f) !in {PlanQuit, WorkQuit, VerifyQuit, VerifyStuck}
  {
  }

  /**
   * Field by field, what a finish does to a row: the end time of its phase, the status and the done
   * time of its event, the summary when the planner ended without an error or a question, and a
   * pull request found by the worker when none was known. It touches nothing else.
   */
  lemma FinishFields(t: Task, f: FinishInput, endAt: Time, now: Time)
    ensures var r := Finished(t, f, endAt, now);
      && r.EndAt(f.Phase()) == endAt && r.WithEndAt(f.Phase(), t.EndAt(f.Phase())).SectionOf(f.Phase()) == t.SectionOf(f.Phase())
      && (forall q: Phase :: q != f.Phase() ==> r.SectionOf(q) == t.SectionOf(q))
    ensures var r := Finished(t, f, endAt, now);
      r.summary == if f.FinishPlan? && !f.runErr && !f.clarification then f.summary else t.summary
    ensures var r := Finished(t, f, endAt, now);
      r.pullRequestURL == if f.FinishWork? && t.pullRequestURL == "" then f.detectedURL else t.pullRequestURL
    ensures var r := Finished(t, f, endAt, now);
      && r.id == t.id && r.worktree == t.worktree && r.linearIssue == t.linearIssue && r.agentLogPath == t.agentLogPath
      && r.doneAt == (if Legal(t.status, FinishEvent(f)) && FinishEvent(f) == VerifyPass then now else t.doneAt)
      && r.status == (if Legal(t.status, FinishEvent(f)) then Destination(FinishEvent(f)) else t.status)
  {
  }

  lemma FinishedStatus(t: Task, f: FinishInput, endAt: Time, now: Time)
    ensures Finished(t, f, endAt, now).status ==
      if Legal(t.status, FinishEvent(f)) then Destination(FinishEvent(f)) else t.status
  {
    AppliedStatus(FinishEdits(t.WithEndAt(f.Phase(), endAt), f), FinishEvent(f), now);
  }

  // ----- The objects -----

  class PlanLifecycle {
    const store: Store
    const clock: Clock
    var task: Task
    var closed: bool

    constructor NewPlanTask(store: Store, clock: Clock, taskID: string, summary: string, linearIssue: string,
                            b: BeginInput, io: bool)
      modifies store, clock
      ensures this.store == store && this.clock == clock && !closed
      ensures old(clock.now) < clock.now
      ensures task == Begun(NewPlan, NO_TASK.(id := taskID, summary := summary, linearIssue := linearIssue), b, clock.now)
      ensures store.rows == Written(old(store.rows), task, io)
      ensures store.notices == Told(old(store.notices), Unset, PlanBegin, task)
    {
      this.store, this.clock, closed := store, clock, false;
      task := NO_TASK;
      new;
      var now := clock.Now();
      task := NO_TASK.(id := taskID, summary := summary, linearIssue := linearIssue,
                       plan := Section(b.session, now, 0), agentLogPath := b.log);
      var r, _, _ := ApplyAndPersistWarn(store, clock, task, PlanBegin, io);
      task := r;
    }

    constructor BeginPlanRestart(store: Store, clock: Clock, t: Task, b: BeginInput, io: bool)
      modifies store, clock
      ensures this.store == store && this.clock == clock && !closed
      ensures old(clock.now) <= clock.now && (t.plan.beginAt == 0 ==> old(clock.now) < clock.now)
      ensures task == Begun(RestartPlan, t, b, clock.now)
      ensures store.rows == Kept(old(store.rows), t.status, PlanRestart, task, io)
      ensures store.notices == Told(old(store.notices), t.status, PlanRestart, task)
    {
      this.store, this.clock, closed := store, clock, false;
      task := t.(plan := t.plan.(agent := b.session, endAt := 0), doneAt := 0, agentLogPath := b.log);
      new;
      if task.plan.beginAt == 0 {
        var now := clock.Now();
        task := task.(plan := task.plan.(beginAt := now));
      }
      var r, _, _ := ApplyAndPersistWarn(store, clock, task, PlanRestart, io);
      task := r;
    }

    /** Panics unless the resume edge exists, so callers must check it. */
    constructor BeginPlanResume(store: Store, clock: Clock, t: Task, b: BeginInput, io: bool)
      requires Legal(t.status, PlanResume)
      modifies store, clock
      ensures this.store == store && this.clock == clock && !closed
      ensures old(clock.now) <= clock.now && (t.plan.beginAt == 0 ==> old(clock.now) < clock.now)
      ensures task == Begun(ResumePlan, t, b, clock.now)
      ensures store.rows == Written(old(store.rows), task, io)
      ensures store.notices == Told(old(store.notices), t.status, PlanResume, task)
    {
      this.store, this.clock, closed := store, clock, false;
      task := t;
      new;
      var newStatus := Fsm.Apply(t.status, PlanResume);
      task := t.(status := newStatus.value,
                 plan := t.plan.(agent := AgentSession(b.session.tool, b.session.model, t.plan.agent.resumeID), endAt := 0),
                 doneAt := 0, agentLogPath := b.log);
      if task.plan.beginAt == 0 {
        var now := clock.Now();
        task := task.(plan := task.plan.(beginAt := now));
      }
      var _ := store.PutTask(task, io);
      store.Notify(Notice(Transition(t.status, PlanResume, newStatus.value), task));
    }

    constructor BeginPlanExisting(store: Store, clock: Clock, t: Task, b: BeginInput, io: bool)
      modifies store, clock
      ensures this.store == store && this.clock == clock && !closed
      ensures old(clock.now) <= clock.now && (t.plan.beginAt == 0 ==> old(clock.now) < clock.now)
      ensures task == Begun(ExistingPlan, t, b, clock.now)
      ensures store.rows == Written(old(store.rows), task, io)
      ensures store.notices == old(store.notices)
    {
      this.store, this.clock, closed := store, clock, false;
      task := t.(plan := t.plan.(agent := b.session), agentLogPath := b.log);
      new;
      if task.plan.beginAt == 0 {
        var now := clock.Now();
        task := task.(plan := task.plan.(beginAt := now));
      }
      var _ := store.PutTask(task, io);
    }

    method RecordAgentLog(logPath: string, io: bool)
      modifies this, store
      ensures closed && store.notices == old(store.notices)
      ensures task == if old(closed) then old(task) else old(task).(agentLogPath := logPath)
      ensures store.rows == if old(closed) then old(store.rows) else Written(old(store.rows), task, io)
    {
      if closed {
        return;
      }
      closed := true;
      task := task.(agentLogPath := logPath);
      var _ := store.PutTask(task, io);
    }

    method RecordResumeSession(id: string, io: bool)
      modifies this`task, store
      ensures store.notices == old(store.notices)
      ensures task == if id == "" then old(task) else old(task).WithSession(PlanPhase, id)
      ensures store.rows == if id == "" then old(store.rows) else Written(old(store.rows), task, io)
    {
      if id == "" {
        return;
      }
      task := task.(plan := task.plan.(agent := task.plan.agent.(resumeID := id)));
      var _ := store.PutTask(task, io);
    }

    method Finish(runErr: bool, clarification: bool, approval: bool, summary: string, io: bool)
      modifies this, store, clock
      ensures closed && old(clock.now) <= clock.now
      ensures old(closed) ==>
        task == old(task) && store.rows == old(store.rows) && store.notices == old(store.notices) && clock.now == old(clock.now)
      ensures !old(closed) ==>
        var f := FinishPlan(runErr, clarification, approval, summary);
        && old(clock.now) < task.plan.endAt <= clock.now
        && task == Finished(old(task), f, task.plan.endAt, clock.now)
        && task.summary == (if runErr || clarification then old(task).summary else summary)
        && store.rows == Kept(old(store.rows), old(task).status, FinishEvent(f), task, io)
        && store.notices == Told(old(store.notices), old(task).status, FinishEvent(f), task)
    {
      if closed {
        return;
      }
      closed := true;
      var now := clock.Now();
      task := task.(plan := task.plan.(endAt := now));
      var ev := PickFinishEvent(runErr, clarification, approval, summary);
      var r, _, _ := ApplyAndPersistWarn(store, clock, task, ev, io);
      task := r;
    }

    /** Picks the event and, on the two planned outcomes only, refreshes the summary. */
    method PickFinishEvent(runErr: bool, clarification: bool, approval: bool, summary: string) returns (ev: Event)
      modifies this`task
      ensures ev == FinishEvent(FinishPlan(runErr, clarification, approval, summary))
      ensures task == FinishEdits(old(task), FinishPlan(runErr, clarification, approval, summary))
      ensures ev == if runErr then PlanError else if clarification then PlanNeedsClarification
                    else if approval then PlanAwaitApproval else PlanDoneEv
      ensures ev in {PlanError, PlanNeedsClarification} ==> task == old(task)
      ensures ev in {PlanAwaitApproval, PlanDoneEv} ==> task == old(task).(summary := summary)
    {
      if runErr {
        return PlanError;
      }
      if clarification {
        return PlanNeedsClarification;
      }
      task := task.(summary := summary);
      if approval {
        return PlanAwaitApproval;
      }
      return PlanDoneEv;
    }
  }

  class WorkLifecycle {
    const store: Store
    const clock: Clock
    var task: Task
    var closed: bool

    constructor NewWorkTask(store: Store, clock: Clock, taskID: string, summary: string, b: BeginInput, io: bool)
      modifies store, clock
      ensures this.store == store && this.clock == clock && !closed
      ensures old(clock.now) < clock.now
      ensures task == Begun(NewWork, NO_TASK.(id := taskID, summary := summary), b, clock.now)
      ensures store.rows == Written(old(store.rows), task, io)
      ensures store.notices == Told(old(store.notices), PlanDone, WorkBegin, task)
    {
      this.store, this.clock, closed := store, clock, false;
      task := NO_TASK;
      new;
      var now := clock.Now();
      task := NO_TASK.(id := taskID, status := PlanDone, summary := summary,
                       work := Section(b.session, now, 0), worktree := b.worktree);
      Open(b.log, WorkBegin, io);
    }

    constructor BeginWorkRestart(store: Store, clock: Clock, t: Task, b: BeginInput, io: bool)
      modifies store, clock
      ensures this.store == store && this.clock == clock && !closed
      ensures old(clock.now) < clock.now
      ensures task == Begun(RestartWork, t, b, clock.now)
      ensures store.rows == Kept(old(store.rows), t.status, WorkRestart, task, io)
      ensures store.notices == Told(old(store.notices), t.status, WorkRestart, task)
    {
      this.store, this.clock, closed := store, clock, false;
      task := t;
      new;
      var now := clock.Now();
      task := t.(work := Section(b.session, now, 0), doneAt := 0,
                 worktree := if t.worktree != "" then t.worktree else b.worktree);
      Open(b.log, WorkRestart, io);
    }

    constructor BeginWorkResume(store: Store, clock: Clock, t: Task, b: BeginInput, io: bool)
      modifies store, clock
      ensures this.store == store && this.clock == clock && !closed
      ensures old(clock.now) <= clock.now && (t.work.beginAt == 0 ==> old(clock.now) < clock.now)
      ensures task == Begun(ResumeWork, t, b, clock.now)
      ensures store.rows == Kept(old(store.rows), t.status, WorkResume, task, io)
      ensures store.notices == Told(old(store.notices), t.status, WorkResume, task)
    {
      this.store, this.clock, closed := store, clock, false;
      task := t.(work := t.work.(endAt := 0), doneAt := 0);
      new;
      if task.work.beginAt == 0 {
        var now := clock.Now();
        task := task.(work := task.work.(beginAt := now));
      }
      Open(b.log, WorkResume, io);
    }

    /** The common tail of the three begins. */
    method Open(log: string, ev: Event, io: bool)
      requires Destination(ev) == Working
      modifies this`task, store, clock
      ensures clock.now == old(clock.now)
      ensures task == Applied(old(task).(agentLogPath := log), ev, clock.now)
      ensures store.rows == Kept(old(store.rows), old(task).status, ev, task, io)
      ensures store.notices == Told(old(store.notices), old(task).status, ev, task)
    {
      task := task.(agentLogPath := log);
      var r, _, _ := ApplyAndPersistWarn(store, clock, task, ev, io);
      task := r;
    }

    method RecordAgentLog(logPath: string, io: bool)
      modifies this, store
      ensures closed && store.notices == old(store.notices)
      ensures task == if old(closed) then old(task) else old(task).(agentLogPath := logPath)
      ensures store.rows == if old(closed) then old(store.rows) else Written(old(store.rows), task, io)
    {
      if closed {
        return;
      }
      closed := true;
      task := task.(agentLogPath := logPath);
      var _ := store.PutTask(task, io);
    }

    method RecordResumeSession(id: string, io: bool)
      modifies this`task, store
      ensures store.notices == old(store.notices)
      ensures task == if id == "" then old(task) else old(task).WithSession(WorkPhase, id)
      ensures store.rows == if id == "" then old(store.rows) else Written(old(store.rows), task, io)
    {
      if id == "" {
        return;
      }
      task := task.(work := task.work.(agent := task.work.agent.(resumeID := id)));
      var _ := store.PutTask(task, io);
    }

    method Finish(runErr: bool, clarification: bool, detectedURL: string, io: bool)
      modifies this, store, clock
      ensures closed && old(clock.now) <= clock.now
      ensures old(closed) ==>
        task == old(task) && store.rows == old(store.rows) && store.notices == old(store.notices) && clock.now == old(clock.now)
      ensures !old(closed) ==>
        var f := FinishWork(runErr, clarification, detectedURL);
        && old(clock.now) < task.work.endAt <= clock.now
        && task == Finished(old(task), f, task.work.endAt, clock.now)
        && task.pullRequestURL == (if old(task).pullRequestURL != "" then old(task).pullRequestURL else detectedURL)
        && store.rows == Kept(old(store.rows), old(task).status, FinishEvent(f), task, io)
        && store.notices == Told(old(store.notices), old(task).status, FinishEvent(f), task)
    {
      if closed {
        return;
      }
      closed := true;
      var now := clock.Now();
      task := task.(work := task.work.(endAt := now));
      DetectPullRequestURL(detectedURL);
      var ev := PickFinishEvent(runErr, clarification, detectedURL);
      var r, _, _ := ApplyAndPersistWarn(store, clock, task, ev, io);
      task := r;
    }

    /** A stored URL is kept; otherwise the one found in the agent's output, if any. */
    method DetectPullRequestURL(detectedURL: string)
      modifies this`task
      ensures task == old(task).(pullRequestURL := task.pullRequestURL)
      ensures task.pullRequestURL == if old(task).pullRequestURL != "" then old(task).pullRequestURL else detectedURL
    {
      if task.pullRequestURL != "" {
        return;
      }
      if detectedURL != "" {
        task := task.(pullRequestURL := detectedURL);
      }
    }

    method PickFinishEvent(runErr: bool, clarification: bool, detectedURL: string) returns (ev: Event)
      ensures ev == FinishEvent(FinishWork(runErr, clarification, detectedURL))
      ensures ev == if runErr then WorkError else if clarification then WorkNeedsClarification else WorkDoneEv
    {
      if runErr {
        return WorkError;
      }
      if clarification {
        return WorkNeedsClarification;
      }
      return WorkDoneEv;
    }
  }

  class VerifyLifecycle {
    const store: Store
    const clock: Clock
    var task: Task
    var maxIterations: int
    var closed: bool

    /** A restart by name, yet the event it fires is the begin event. */
    constructor BeginVerifyRestart(store: Store, clock: Clock, t: Task, b: BeginInput, io: bool)
      modifies store, clock
      ensures this.store == store && this.clock == clock && !closed && maxIterations == 0
      ensures old(clock.now) < clock.now
      ensures task == Begun(RestartVerify, t, b, clock.now)
      ensures store.rows == Kept(old(store.rows), t.status, VerifyBegin, task, io)
      ensures store.notices == Told(old(store.notices), t.status, VerifyBegin, task)
    {
      this.store, this.clock, closed, maxIterations := store, clock, false, 0;
      task := t;
      new;
      var now := clock.Now();
      task := t.(verify := Section(b.session, now, 0), doneAt := 0);
      Open(b.log, VerifyBegin, io);
    }

    constructor BeginVerifyResume(store: Store, clock: Clock, t: Task, b: BeginInput, io: bool)
      modifies store, clock
      ensures this.store == store && this.clock == clock && !closed && maxIterations == 0
      ensures old(clock.now) <= clock.now && (t.verify.beginAt == 0 ==> old(clock.now) < clock.now)
      ensures task == Begun(ResumeVerify, t, b, clock.now)
      ensures store.rows == Kept(old(store.rows), t.status, VerifyResume, task, io)
      ensures store.notices == Told(old(store.notices), t.status, VerifyResume, task)
    {
      this.store, this.clock, closed, maxIterations := store, clock, false, 0;
      task := t.(verify := t.verify.(endAt := 0), doneAt := 0);
      new;
      if task.verify.beginAt == 0 {
        var now := clock.Now();
        task := task.(verify := task.verify.(beginAt := now));
      }
      Open(b.log, VerifyResume, io);
    }

    method Open(log: string, ev: Event, io: bool)
      requires Destination(ev) == Verifying
      modifies this`task, store, clock
      ensures clock.now == old(clock.now)
      ensures task == Applied(old(task).(agentLogPath := log), ev, clock.now)
      ensures store.rows == Kept(old(store.rows), old(task).status, ev, task, io)
      ensures store.notices == Told(old(store.notices), old(task).status, ev, task)
    {
      task := task.(agentLogPath := log);
      var r, _, _ := ApplyAndPersistWarn(store, clock, task, ev, io);
      task := r;
    }

    method RecordAgentLog(logPath: string, io: bool)
      modifies this`task, this`closed, store
      ensures closed && store.notices == old(store.notices)
      ensures task == if old(closed) then old(task) else old(task).(agentLogPath := logPath)
      ensures store.rows == if old(closed) then old(store.rows) else Written(old(store.rows), task, io)
    {
      if closed {
        return;
      }
      closed := true;
      task := task.(agentLogPath := logPath);
      var _ := store.PutTask(task, io);
    }

    method RecordResumeSession(id: string, io: bool)
      modifies this`task, store
      ensures store.notices == old(store.notices)
      ensures task == if id == "" then old(task) else old(task).WithSession(VerifyPhase, id)
      ensures store.rows == if id == "" then old(store.rows) else Written(old(store.rows), task, io)
    {
      if id == "" {
        return;
      }
      task := task.(verify := task.verify.(agent := task.verify.agent.(resumeID := id)));
      var _ := store.PutTask(task, io);
    }

    method IterationBegin(iterMax: int)
      modifies this`maxIterations
      ensures maxIterations == iterMax
    {
      maxIterations := iterMax;
    }

    method Finish(outcome: VerifyOutcome, runErr: bool, clarification: bool, io: bool)
      modifies this`task, this`closed, store, clock
      ensures closed && old(clock.now) <= clock.now
      ensures old(closed) ==>
        task == old(task) && store.rows == old(store.rows) && store.notices == old(store.notices) && clock.now == old(clock.now)
      ensures !old(closed) ==>
        var f := FinishVerify(runErr, clarification, outcome);
        && old(clock.now) < task.verify.endAt <= clock.now
        && task == Finished(old(task), f, task.verify.endAt, clock.now)
        && (task.status == Completed && Legal(old(task).status, FinishEvent(f)) ==> task.verify.endAt < task.doneAt == clock.now)
        && store.rows == Kept(old(store.rows), old(task).status, FinishEvent(f), task, io)
        && store.notices == Told(old(store.notices), old(task).status, FinishEvent(f), task)
    {
      if closed {
        return;
      }
      closed := true;
      var now := clock.Now();
      task := task.(verify := task.verify.(endAt := now));
      var ev := PickFinishEvent(outcome, runErr, clarification);
      var r, _, _ := ApplyAndPersistWarn(store, clock, task, ev, io);
      task := r;
    }

    method PickFinishEvent(outcome: VerifyOutcome, runErr: bool, clarification: bool) returns (ev: Event)
      ensures ev == FinishEvent(FinishVerify(runErr, clarification, outcome))
      ensures ev == if runErr then VerifyError else if clarification then VerifyNeedsClarification
                    else if outcome == Success then VerifyPass else VerifyFail
    {
      if runErr {
        return VerifyError;
      }
      if clarification {
        return VerifyNeedsClarification;
      }
      if outcome == Success {
        return VerifyPass;
      }
      return VerifyFail;
    }
  }
}
