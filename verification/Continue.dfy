/**
 * `tasks continue`: what the dispatcher does to a row of each status, which begin the child
 * orchestrator then picks, and exactly when that begin has a legal edge.
 */
module Continue {
  import opened Common
  import opened Fsm
  import opened TaskRow
  import opened Lifecycle
  import opened LatestPhase
  import opened Reap
  import opened TaskRuns
  import opened Watch

  /** How a phase begins on a row: resume when a session is stored, otherwise adopt or restart. */
  function Pick(p: Phase, t: Task): BeginKind {
    match p
    case PlanPhase =>
      if t.Session(PlanPhase) != "" then ResumePlan else if t.status == Planning then ExistingPlan else RestartPlan
    case WorkPhase => if t.Session(WorkPhase) != "" then ResumeWork else RestartWork
    case VerifyPhase => if t.Session(VerifyPhase) != "" then ResumeVerify else RestartVerify
  }

  /** The first phase of the child orchestrator, if a continue launches one. */
  datatype Dispatch = Advice | NoResumablePhase | Unsupported | Launch(first: Phase)

  /** The event the dispatcher itself fires before launching. */
  function DispatchEvent(t: Task): Option<Event> {
    match t.status
    case PlanPendingApproval => Some(PlanApprove)
    case NeedsClarification => (match Latest(t) case Some(p) => Some(ResumeEvent(p)) case None => None)
    case _ => None
  }

  function DispatchOf(t: Task): Dispatch {
    match t.status
    case Planning | Working | Failed | Completed => Advice
    case PlanPendingApproval | PlanDone => Launch(WorkPhase)
    case WorkDone | Verifying => Launch(VerifyPhase)
    case NeedsClarification | Help =>
      (match Latest(t) case Some(p) => Launch(p) case None => NoResumablePhase)
    case Unset => Unsupported
  }

  /** The stored row the child reads: the dispatcher's own write may have failed. */
  function ChildRow(t: Task, wrote: bool, at: Time): Task {
    match DispatchEvent(t)
    case Some(e) => if wrote then Applied(t, e, at) else t
    case None => t
  }

  /** Exactly the rows on which the child's first begin has a legal edge when nothing happens in between. */
  predicate ContinueReady(t: Task, wrote: bool) {
    match t.status
    case PlanPendingApproval => wrote && t.Session(WorkPhase) == ""
    case PlanDone => t.Session(WorkPhase) == ""
    case WorkDone => t.Session(VerifyPhase) == ""
    case Verifying => true
    case NeedsClarification => Latest(t).Some? && (wrote || t.Session(Latest(t).value) != "")
    case Help => Latest(t).Some? && (Latest(t) == Some(VerifyPhase) ==> t.Session(VerifyPhase) != "")
    case _ => false
  }

  /**
   * The same when the child finds the row at `found`: a resumed row may have been reaped by then.
   * A phase with a session cannot resume from work-done, one without cannot restart from needs-clarification.
   */
  predicate ReadyAt(t: Task, wrote: bool, found: Status) {
    if t.status == NeedsClarification then Latest(t).Some? && BeginsFrom(Latest(t).value, t.Session(Latest(t).value), found)
    else ContinueReady(t, wrote)
  }

  predicate BeginsFrom(p: Phase, session: string, found: Status) {
    if session != "" then !(p == WorkPhase && found == WorkDone) else found != NeedsClarification
  }

  lemma PickLegal(p: Phase, t: Task)
    ensures BeginLegal(Pick(p, t), t) <==>
      match p
      case PlanPhase =>
        if t.Session(PlanPhase) != "" then t.status !in {Unset, Working, WorkDone, Verifying}
        else t.status !in {Unset, Verifying, NeedsClarification}
      case WorkPhase =>
        if t.Session(WorkPhase) != "" then t.status in {Working, Failed, Completed, Help, NeedsClarification}
        else t.status !in {Unset, PlanPendingApproval, Verifying, NeedsClarification}
      case VerifyPhase =>
        if t.Session(VerifyPhase) != "" then t.status in {PlanDone, Verifying, Failed, Completed, Help, NeedsClarification}
        else t.status in {Planning, PlanDone, WorkDone, Verifying}
  {
  }

  lemma ChildRowIs(t: Task, wrote: bool, at: Time)
    ensures var c := ChildRow(t, wrote, at);
      c == if DispatchEvent(t).Some? && wrote then t.(status := Destination(DispatchEvent(t).value)) else t
  {
    if DispatchEvent(t).Some? {
      AppliedActive(t, DispatchEvent(t).value, at);
    }
  }

  /** A resumed row's status when the child reads it: as left by the dispatcher, or by a reap. */
  lemma FoundStatus(t: Task, wrote: bool, at: Time, c: Task)
    requires Around(ChildRow(t, wrote, at), c) && DispatchOf(t).Launch?
    ensures t.status != NeedsClarification || !wrote ==> c == ChildRow(t, wrote, at)
    ensures t.status == NeedsClarification && wrote ==>
      match Latest(t).value
      case PlanPhase => c.status in {Planning, NeedsClarification, Help, PlanPendingApproval, PlanDone}
      case WorkPhase => c.status in {Working, NeedsClarification, WorkDone}
      case VerifyPhase => c.status == Verifying
  {
    ChildRowIs(t, wrote, at);
    AroundStatus(ChildRow(t, wrote, at), c);
  }

  /**
   * A continue leads to a legal begin exactly on the ready rows, `c` being the row the child reads:
   * the one the dispatcher left, or that one reaped in the meantime.
   */
  lemma ContinueBegins(t: Task, wrote: bool, at: Time, c: Task)
    requires Around(ChildRow(t, wrote, at), c)
    ensures DispatchOf(t).Launch? && BeginLegal(Pick(DispatchOf(t).first, c), c) <==> ReadyAt(t, wrote, c.status)
    ensures c == ChildRow(t, wrote, at) ==> (ReadyAt(t, wrote, c.status) <==> ContinueReady(t, wrote))
  {
    ChildRowIs(t, wrote, at);
    AroundFacts(ChildRow(t, wrote, at), c);
    if DispatchOf(t).Launch? {
      FoundStatus(t, wrote, at, c);
      PickLegal(DispatchOf(t).first, c);
    }
  }

  /** The planner's resume begin panics on an illegal edge; reads and reaps in the meantime do not lead there. */
  lemma ContinueNeverPanics(t: Task, wrote: bool, at: Time, c: Task)
    requires Around(ChildRow(t, wrote, at), c)
    requires DispatchOf(t) == Launch(PlanPhase) && Pick(PlanPhase, c) == ResumePlan
    ensures Legal(c.status, PlanResume)
  {
    ChildRowIs(t, wrote, at);
    FoundStatus(t, wrote, at, c);
  }

  /** With a reap in the meantime the begin depends on the files the reaper found. */
  lemma ReapedBeforeRead(t: Task, at: Time, f: Files, end: Time)
    requires t.status == NeedsClarification && Latest(t).Some? && Latest(t) != Some(VerifyPhase)
    ensures var p, c := Latest(t).value, Reaped(ChildRow(t, true, at), f, end, end);
      BeginLegal(Pick(p, c), c) <==>
        if p == PlanPhase then t.Session(p) != "" || !f.clarification else (t.Session(p) != "") == f.clarification
  {
    ChildRowIs(t, true, at);
    ReapedBegins(t, at, ChildRow(t, true, at), f, end);
  }

  lemma ReapedBegins(t: Task, at: Time, r: Task, f: Files, end: Time)
    requires t.status == NeedsClarification && Latest(t).Some? && Reapable(r.status)
    requires r == ChildRow(t, true, at) && r.status == ActiveStatus(Latest(t).value)
    ensures var p, c := Latest(t).value, Reaped(r, f, end, end);
      BeginLegal(Pick(p, c), c) <==>
        if p == PlanPhase then t.Session(p) != "" || !f.clarification else (t.Session(p) != "") == f.clarification
  {
    ReapedFacts(r, f, end);
    ReapedStatus(r.status, f);
    assert ReapOf(r, f, end, Reaped(r, f, end, end));
    ContinueBegins(t, true, at, Reaped(r, f, end, end));
  }

  /** The dispatcher's copy is the row on disk. */
  predicate Current(s: State, v: nat)
    requires v < |s.views|
  {
    s.views[v].tag.row.id in s.disk && s.disk[s.views[v].tag.row.id] == s.views[v].tag
  }

  lemma WaitingNamesPhase(steps: seq<Step>, v: nat)
    requires v < |Exec(START, steps).views| && Exec(START, steps).views[v].tag.row.status == NeedsClarification
    ensures var g := Exec(START, steps).views[v].tag;
      g.stopper.Some? && Latest(g.row) == g.stopper && Legal(NeedsClarification, ResumeEvent(g.stopper.value))
  {
    var g := Exec(START, steps).views[v].tag;
    assert Holds(Exec(START, steps), g);
    PhaseAttribution(steps, g);
  }

  /**
   * In every run, a row waiting for clarification names the phase that asked and the resume event
   * of that phase is legal. Whatever watchers do between the dispatcher's write and the child's
   * read, the child finds the row the dispatcher left, or that row reaped, and its begin is legal
   * exactly unless the row is at needs-clarification (still, or again) and the phase has no session,
   * or at work-done and the worker has one.
   */
  lemma ClarificationNeverDeadEnds(steps: seq<Step>, v: nat, at: Time, io: bool, more: seq<Step>)
    requires Enabled(Exec(START, steps), Clarify(v, at, io)) && Current(Exec(START, steps), v)
    requires var s := Exec(START, steps);
      Watched(Do(s, Clarify(v, at, io)), |s.views|, s.views[v].tag.row.id, more)
    ensures var g := Exec(START, steps).views[v].tag;
      g.stopper.Some? && DispatchOf(g.row) == Launch(g.stopper.value) && Legal(NeedsClarification, ResumeEvent(g.stopper.value))
    ensures var s := Exec(START, steps);
      var g, t := s.views[v].tag, Exec(Do(s, Clarify(v, at, io)), more);
      g.row.id in t.disk && ChildFinds(g.row, g.stopper.value, io, at, t.disk[g.row.id].row)
  {
    var s := Exec(START, steps);
    var g, u := s.views[v].tag, Do(s, Clarify(v, at, io));
    WaitingNamesPhase(steps, v);
    RunKeyed(START, steps);
    StepKeyed(s, Clarify(v, at, io));
    ClarifiedWindow(s, v, at, io);
    WatchKeeps(u, |s.views|, g.row.id, ChildRow(g.row, io, at), more);
    ChildBegins(g.row, g.stopper.value, io, at, Exec(u, more).disk[g.row.id].row);
  }

  /** The row the child finds, and exactly when its begin is legal there. */
  ghost predicate ChildFinds(t: Task, p: Phase, wrote: bool, at: Time, c: Task) {
    && Around(ChildRow(t, wrote, at), c)
    && (BeginLegal(Pick(p, c), c) <==> BeginsFrom(p, t.Session(p), c.status))
    && (c == ChildRow(t, wrote, at) ==> (BeginLegal(Pick(p, c), c) <==> wrote || t.Session(p) != ""))
  }

  lemma ChildBegins(t: Task, p: Phase, wrote: bool, at: Time, c: Task)
    requires t.status == NeedsClarification && Latest(t) == Some(p) && Around(ChildRow(t, wrote, at), c)
    ensures ChildFinds(t, p, wrote, at, c)
  {
    ContinueBegins(t, wrote, at, c);
  }

  lemma ClarifiedWindow(s: State, v: nat, at: Time, io: bool)
    requires Keyed(s) && Enabled(s, Clarify(v, at, io)) && Current(s, v)
    ensures var r := ChildRow(s.views[v].tag.row, io, at);
      Window(Do(s, Clarify(v, at, io)), |s.views|, s.views[v].tag.row.id, r)
  {
    var t := s.views[v].tag.row;
    ChildRowIs(t, io, at);
    assert Do(s, Clarify(v, at, io)).disk[t.id].row == ChildRow(t, io, at);
  }

  /**
   * A corollary of `PickLegal` for whatever other processes did to the row in between, which includes
   * reaps of older copies: no run stores a row without a status, and the rest depends on the row alone.
   */
  lemma ChildAfterAnything(steps: seq<Step>, id: string, p: Phase)
    requires id in Exec(START, steps).disk
    ensures var c := Exec(START, steps).disk[id].row;
      BeginLegal(Pick(p, c), c) <==>
        match p
        case PlanPhase =>
          if c.Session(p) != "" then c.status !in {Working, WorkDone, Verifying}
          else c.status !in {Verifying, NeedsClarification}
        case WorkPhase =>
          if c.Session(p) != "" then c.status in {Working, Failed, Completed, Help, NeedsClarification}
          else c.status !in {PlanPendingApproval, Verifying, NeedsClarification}
        case VerifyPhase =>
          if c.Session(p) != "" then c.status in {PlanDone, Verifying, Failed, Completed, Help, NeedsClarification}
          else c.status in {Planning, PlanDone, WorkDone, Verifying}
  {
    RunKeyed(START, steps);
    PickLegal(p, Exec(START, steps).disk[id].row);
  }

  /** A row at help resumes the phase that failed, legally unless that is a verify without a session. */
  lemma HelpResumes(steps: seq<Step>, g: Tagged, at: Time)
    requires Holds(Exec(START, steps), g) && g.row.status == Help
    ensures g.stopper.Some? && DispatchOf(g.row) == Launch(g.stopper.value)
    ensures BeginLegal(Pick(g.stopper.value, g.row), g.row) <==>
      !(g.stopper == Some(VerifyPhase) && g.row.Session(VerifyPhase) == "")
  {
    PhaseAttribution(steps, g);
    ContinueBegins(g.row, true, at, g.row);
  }

  // ----- Begins without an edge -----

  /**
   * A restart on a stopped row without an edge still clears its phase's end time, and a later
   * session record persists that. The row then misnames its stopper exactly when the begin was
   * of the stopping phase itself, unless the cursor cascade happens to land there again.
   */
  predicate SurvivesLostBegin(t: Task, p: Phase, stopper: Phase) {
    || p != stopper
    || (match p
        case VerifyPhase => t.work.endAt == 0 && t.plan.endAt == 0
        case WorkPhase => t.verify.endAt == 0 && t.plan.endAt == 0 && t.Session(VerifyPhase) == ""
        case PlanPhase =>
          && t.verify.endAt == 0 && t.work.endAt == 0
          && t.Session(VerifyPhase) == "" && t.Session(WorkPhase) == "")
  }

  function AfterLostBegin(kind: BeginKind, t: Task, b: BeginInput, at: Time, session: string): Task {
    Begun(kind, t, b, at).WithSession(BeginPhase(kind), session)
  }

  lemma LostBeginRow(kind: BeginKind, t: Task, b: BeginInput, at: Time, session: string)
    requires kind in {RestartPlan, RestartWork, RestartVerify} && !BeginLegal(kind, t)
    ensures var r, p := AfterLostBegin(kind, t, b, at, session), BeginPhase(kind);
      && r.status == t.status && r.doneAt == 0 && r.Session(p) == session && r.EndAt(p) == 0
      && forall q: Phase :: q != p ==> r.EndAt(q) == t.EndAt(q) && r.Session(q) == t.Session(q)
  {
  }

  lemma LostBeginAttribution(kind: BeginKind, g: Tagged, b: BeginInput, at: Time, now: Time, session: string)
    requires kind in {RestartPlan, RestartWork, RestartVerify} && !BeginLegal(kind, g.row)
    requires GoodRow(g, now) && Stopped(g.row.status) && session != ""
    ensures Latest(AfterLostBegin(kind, g.row, b, at, session)) == g.stopper
      <==> SurvivesLostBegin(g.row, BeginPhase(kind), g.stopper.value)
  {
    LostBeginRow(kind, g.row, b, at, session);
  }

  /** The done time survives a begin without an edge exactly when the row was not completed. */
  lemma LostBeginDone(kind: BeginKind, g: Tagged, b: BeginInput, at: Time, now: Time, session: string)
    requires kind in {RestartPlan, RestartWork, RestartVerify} && !BeginLegal(kind, g.row)
    requires GoodRow(g, now)
    ensures var r := AfterLostBegin(kind, g.row, b, at, session);
      (r.doneAt != 0 <==> r.status == Completed) <==> g.row.status != Completed
  {
    LostBeginRow(kind, g.row, b, at, session);
  }

  /** A verify that failed with no session: the lost restart makes the row name the worker. */
  lemma LostBeginExample(b: BeginInput)
    ensures var t := NO_TASK.(id := "t", status := Help, plan := NO_SECTION.(endAt := 1),
                              work := NO_SECTION.(endAt := 2), verify := NO_SECTION.(endAt := 3));
      && GoodRow(Tagged(t, Some(VerifyPhase)), 3)
      && !BeginLegal(Pick(VerifyPhase, t), t)
      && Latest(t) == Some(VerifyPhase)
      && Latest(AfterLostBegin(Pick(VerifyPhase, t), t, b, 4, "s")) == Some(WorkPhase)
  {
  }

  // ----- The dispatchers -----

  /** Approving is continuing: the row moves to plan-done and the worker is launched regardless. */
  method DispatchPlanApprove(s: Store, clock: Clock, t: Task, io: bool) returns (r: Task, launched: Phase)
    requires t.status == PlanPendingApproval
    modifies s, clock
    ensures r == t.(status := PlanDone) && launched == WorkPhase && clock.now == old(clock.now)
    ensures r == ChildRow(t, true, clock.now)
    ensures s.rows == Written(old(s.rows), r, io)
    ensures DispatchOf(t) == Launch(launched)
  {
    var a, _, _ := ApplyAndPersistWarn(s, clock, t, PlanApprove, io);
    r, launched := a, WorkPhase;
  }

  /** The phase of the freshest end time, or else of the latest stored session, by phase order. */
  method LatestPhaseOf(t: Task) returns (p: Option<Phase>)
    ensures p == Latest(t)
  {
    p := ScanEndAt(t);
    if p.None? {
      if t.verify.agent.resumeID != "" {
        p := Some(VerifyPhase);
      } else if t.work.agent.resumeID != "" {
        p := Some(WorkPhase);
      } else if t.plan.agent.resumeID != "" {
        p := Some(PlanPhase);
      }
    }
  }

  /** Fires the resume event of the phase that asked, then launches that phase. */
  method DispatchClarification(s: Store, clock: Clock, t: Task, io: bool) returns (r: Task, launched: Option<Phase>)
    requires t.status == NeedsClarification
    modifies s, clock
    ensures launched == Latest(t) && clock.now == old(clock.now)
    ensures launched.None? ==> r == t && s.rows == old(s.rows) && s.notices == old(s.notices)
    ensures launched.Some? ==>
      && r == t.(status := ActiveStatus(launched.value))
      && s.rows == Written(old(s.rows), r, io)
      && r == ChildRow(t, true, clock.now)
  {
    r := t;
    launched := LatestPhaseOf(t);
    if launched.None? {
      return;
    }
    var ev := match launched.value case VerifyPhase => VerifyResume case WorkPhase => WorkResume case PlanPhase => PlanResume;
    var a, _, _ := ApplyAndPersistWarn(s, clock, t, ev, io);
    r := a;
  }

  /**
   * The dispatcher. It launches a phase for every status but those somebody is working on, or that
   * are final, where it only gives advice; it writes only on the two statuses it moves itself.
   */
  method DispatchByStatus(s: Store, clock: Clock, t: Task, io: bool) returns (r: Task, d: Dispatch)
    modifies s, clock
    ensures d == DispatchOf(t) && (t.status != Unset ==> r == ChildRow(t, true, clock.now))
    ensures d == Advice <==> t.status in {Planning, Working, Failed, Completed}
    ensures d == Unsupported <==> t.status == Unset
    ensures d == NoResumablePhase <==> t.status in {NeedsClarification, Help} && Latest(t).None?
    ensures d == Launch(PlanPhase) <==> t.status in {NeedsClarification, Help} && Latest(t) == Some(PlanPhase)
    ensures d == Launch(WorkPhase) <==>
      t.status in {PlanPendingApproval, PlanDone} || (t.status in {NeedsClarification, Help} && Latest(t) == Some(WorkPhase))
    ensures d == Launch(VerifyPhase) <==>
      t.status in {WorkDone, Verifying} || (t.status in {NeedsClarification, Help} && Latest(t) == Some(VerifyPhase))
    ensures t.status !in {PlanPendingApproval, NeedsClarification} || !d.Launch? ==>
      r == t && s.rows == old(s.rows) && s.notices == old(s.notices)
    ensures t.status in {PlanPendingApproval, NeedsClarification} && d.Launch? ==>
      && s.rows == Written(old(s.rows), r, io)
      && r == t.(status := if t.status == PlanPendingApproval then PlanDone else ActiveStatus(d.first))
  {
    r := t;
    match t.status {
      case Planning => d := Advice;
      case PlanPendingApproval =>
        var first;
        r, first := DispatchPlanApprove(s, clock, t, io);
        d := Launch(first);
      case PlanDone => d := Launch(WorkPhase);
      case Working => d := Advice;
      case WorkDone => d := Launch(VerifyPhase);
      case Verifying => d := Launch(VerifyPhase);
      case NeedsClarification =>
        var launched;
        r, launched := DispatchClarification(s, clock, t, io);
        d := if launched.Some? then Launch(launched.value) else NoResumablePhase;
      case Failed => d := Advice;
      case Completed => d := Advice;
      case Help =>
        var latest := LatestPhaseOf(t);
        d := if latest.Some? then Launch(latest.value) else NoResumablePhase;
      case Unset => d := Unsupported;
    }
  }

  /**
   * In every run, whatever row is on disk: a continue is never at a loss. It gives advice on rows
   * that are being planned or worked on or are final, launches the next phase of a planned or worked
   * row, and on a stopped row launches exactly the phase that stopped it.
   */
  lemma ContinueNeverLost(steps: seq<Step>, id: string)
    requires id in Exec(START, steps).disk
    ensures var g := Exec(START, steps).disk[id];
      match g.row.status
      case Planning | Working | Failed | Completed => DispatchOf(g.row) == Advice
      case PlanPendingApproval | PlanDone => DispatchOf(g.row) == Launch(WorkPhase)
      case WorkDone | Verifying => DispatchOf(g.row) == Launch(VerifyPhase)
      case NeedsClarification | Help => g.stopper.Some? && DispatchOf(g.row) == Launch(g.stopper.value)
      case Unset => false
  {
    RunKeyed(START, steps);
    var g := Exec(START, steps).disk[id];
    if Stopped(g.row.status) {
      assert Holds(Exec(START, steps), g);
      PhaseAttribution(steps, g);
    }
  }
}
