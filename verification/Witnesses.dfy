/** Concrete runs of the task store in which a continue, or a reap, goes wrong. */
module Witnesses {
  import opened Common
  import opened Fsm
  import opened TaskRow
  import opened Lifecycle
  import opened LatestPhase
  import opened Reap
  import opened TaskRuns
  import opened Watch
  import opened Continue

  function Input(session: string): BeginInput { BeginInput(AgentSession("", "", session), "", "w") }

  function Ran(session: string, begin: Time, end: Time): Section { Section(AgentSession("", "", session), begin, end) }

  const BASE := NO_TASK.(id := "t")

  // ----- Runs, grown one step at a time -----

  lemma AndThen(steps: seq<Step>, s: State, step: Step, t: State) returns (longer: seq<Step>)
    requires Exec(START, steps) == s && Do(s, step) == t
    ensures longer == steps + [step] && Exec(START, longer) == t
  {
    longer := steps + [step];
    ExecSnoc(START, steps, step);
  }

  lemma {:induction false} ExecSnoc(s: State, steps: seq<Step>, step: Step)
    ensures Exec(s, steps + [step]) == Do(Exec(s, steps), step)
    decreases |steps|
  {
    if steps == [] {
      assert steps + [step] == [step] && [step][1..] == [];
    } else {
      assert (steps + [step])[1..] == steps[1..] + [step];
      ExecSnoc(Do(s, steps[0]), steps[1..], step);
    }
  }

  /** The store after one phase of one row, by the process that runs it. */
  function Running(g: Tagged, p: Phase, closed: bool, now: Time): State {
    State(map[g.row.id := g], [Live(g, p, closed)], now)
  }

  /** The same after another process has read the row. */
  function Settled(g: Tagged, p: Phase, now: Time): State {
    State(map[g.row.id := g], [Live(g, p, true), Snapshot(g)], now)
  }

  lemma Created(kind: BeginKind, b: BeginInput, begun: Task) returns (steps: seq<Step>)
    requires (kind == NewPlan || kind == NewWork) && begun == Begun(kind, BASE, b, 1) && begun.id == "t" && Storable(begun)
    ensures Exec(START, steps) == Running(Tagged(begun, None), BeginPhase(kind), false, 1)
  {
    steps := AndThen([], START, Create(kind, BASE, b, 1, true), Running(Tagged(begun, None), BeginPhase(kind), false, 1));
  }

  lemma Finishing(s: State, v: nat, f: FinishInput, end: Time, at: Time, g: Tagged)
    requires Enabled(s, Finish(v, f, end, at, true)) && Legal(s.views[v].tag.row.status, FinishEvent(f))
    requires g == Attributed(s.views[v].tag, Finished(s.views[v].tag.row, f, end, at), s.views[v].phase) && Storable(g.row)
    ensures Do(s, Finish(v, f, end, at, true)) == State(s.disk[g.row.id := g], s.views[v := Live(g, s.views[v].phase, true)], at)
  {
  }

  lemma Logging(g: Tagged, p: Phase, now: Time, path: string)
    requires Storable(g.row) && g.row.agentLogPath == path
    ensures Do(Running(g, p, false, now), RecordLog(0, path, true)) == Running(g, p, true, now)
  {
    assert g.(row := g.row.(agentLogPath := path)) == g;
  }

  lemma Ended(steps: seq<Step>, begun: Task, p: Phase, f: FinishInput, g: Tagged) returns (longer: seq<Step>)
    requires Exec(START, steps) == Running(Tagged(begun, None), p, false, 1)
    requires f.Phase() == p && begun.status == ActiveStatus(p) && Legal(begun.status, FinishEvent(f))
    requires g == Attributed(Tagged(begun, None), Finished(begun, f, 2, 3), p) && g.row.id == begun.id && Storable(g.row)
    ensures Exec(START, longer) == Running(g, p, true, 3)
  {
    var s := Running(Tagged(begun, None), p, false, 1);
    Finishing(s, 0, f, 2, 3, g);
    longer := AndThen(steps, s, Finish(0, f, 2, 3, true), Running(g, p, true, 3));
  }

  lemma ReadBack(steps: seq<Step>, g: Tagged, p: Phase, now: Time) returns (longer: seq<Step>)
    requires Exec(START, steps) == Running(g, p, true, now)
    ensures Exec(START, longer) == Settled(g, p, now)
  {
    longer := AndThen(steps, Running(g, p, true, now), Read(g.row.id), Settled(g, p, now));
  }

  /** A new row whose first phase ended, read by another process. */
  lemma FirstPhase(kind: BeginKind, session: string, f: FinishInput, begun: Task, g: Tagged) returns (steps: seq<Step>)
    requires (kind == NewPlan || kind == NewWork) && f.Phase() == BeginPhase(kind)
    requires begun == Begun(kind, BASE, Input(session), 1) && begun.id == "t" && Storable(begun)
    requires begun.status == ActiveStatus(f.Phase()) && Legal(begun.status, FinishEvent(f))
    requires g == Attributed(Tagged(begun, None), Finished(begun, f, 2, 3), f.Phase()) && g.row.id == "t" && Storable(g.row)
    ensures Exec(START, steps) == Settled(g, f.Phase(), 3)
  {
    steps := Created(kind, Input(session), begun);
    steps := Ended(steps, begun, f.Phase(), f, g);
    steps := ReadBack(steps, g, f.Phase(), 3);
  }

  /** The store once a second process has begun on the row it read. */
  function Rebegun(g: Tagged, p: Phase, now: Time, h: Tagged, q: Phase, at: Time): State {
    Settled(g, p, now).(disk := map[h.row.id := h], views := Settled(g, p, now).views + [Live(h, q, false)], now := at)
  }

  lemma BegunAgain(steps: seq<Step>, g: Tagged, p: Phase, now: Time, kind: BeginKind, session: string, at: Time, h: Tagged)
    returns (longer: seq<Step>)
    requires Exec(START, steps) == Settled(g, p, now) && now < at && kind != NewPlan && kind != NewWork
    requires BeginLegal(kind, g.row) && h == g.(row := Begun(kind, g.row, Input(session), at))
    requires h.row.id == g.row.id && Storable(h.row)
    ensures Exec(START, longer) == Rebegun(g, p, now, h, BeginPhase(kind), at)
  {
    longer := AndThen(steps, Settled(g, p, now), Begin(1, kind, Input(session), at, true),
                      Rebegun(g, p, now, h, BeginPhase(kind), at));
  }

  lemma Beginning(s: State, v: nat, kind: BeginKind, b: BeginInput, at: Time, h: Tagged)
    requires Enabled(s, Begin(v, kind, b, at, true)) && Storable(h.row)
    requires h == s.views[v].tag.(row := Begun(kind, s.views[v].tag.row, b, at))
    ensures Do(s, Begin(v, kind, b, at, true)) == State(s.disk[h.row.id := h], s.views + [Live(h, BeginPhase(kind), false)], at)
  {
  }

  /** One more phase of the row on disk: some process reads it, begins, and finishes three ticks later. */
  lemma NextPhase(steps: seq<Step>, s: State, g: Tagged, kind: BeginKind, session: string, f: FinishInput, begun: Task, k: Tagged)
    returns (longer: seq<Step>)
    requires Exec(START, steps) == s && s.disk == map["t" := g]
    requires kind != NewPlan && kind != NewWork && BeginLegal(kind, g.row) && f.Phase() == BeginPhase(kind)
    requires begun == Begun(kind, g.row, Input(session), s.now + 1) && begun.id == "t" && Storable(begun)
    requires begun.status == ActiveStatus(f.Phase()) && Legal(begun.status, FinishEvent(f))
    requires k == Attributed(g.(row := begun), Finished(begun, f, s.now + 2, s.now + 3), f.Phase())
    requires k.row.id == "t" && Storable(k.row)
    ensures Exec(START, longer).disk == map["t" := k] && Exec(START, longer).now == s.now + 3
  {
    var u;
    longer, u := PhaseBegins(steps, s, g, kind, session, g.(row := begun));
    longer := PhaseEnds(longer, u, |s.views| + 1, f, g.(row := begun), k);
  }

  lemma PhaseBegins(steps: seq<Step>, s: State, g: Tagged, kind: BeginKind, session: string, h: Tagged)
    returns (longer: seq<Step>, u: State)
    requires Exec(START, steps) == s && s.disk == map["t" := g]
    requires kind != NewPlan && kind != NewWork && BeginLegal(kind, g.row)
    requires h == g.(row := Begun(kind, g.row, Input(session), s.now + 1)) && h.row.id == "t" && Storable(h.row)
    ensures Exec(START, longer) == u && u.disk == map["t" := h] && u.now == s.now + 1
    ensures |u.views| == |s.views| + 2 && u.views[|s.views| + 1] == Live(h, BeginPhase(kind), false)
  {
    var r := s.(views := s.views + [Snapshot(g)]);
    longer := AndThen(steps, s, Read("t"), r);
    Beginning(r, |s.views|, kind, Input(session), s.now + 1, h);
    u := State(r.disk["t" := h], r.views + [Live(h, BeginPhase(kind), false)], s.now + 1);
    longer := AndThen(longer, r, Begin(|s.views|, kind, Input(session), s.now + 1, true), u);
  }

  lemma PhaseEnds(steps: seq<Step>, u: State, v: nat, f: FinishInput, h: Tagged, k: Tagged) returns (longer: seq<Step>)
    requires Exec(START, steps) == u && u.disk == map["t" := h] && v < |u.views| && u.views[v] == Live(h, f.Phase(), false)
    requires h.row.status == ActiveStatus(f.Phase()) && Legal(h.row.status, FinishEvent(f))
    requires k == Attributed(h, Finished(h.row, f, u.now + 1, u.now + 2), f.Phase()) && k.row.id == "t" && Storable(k.row)
    ensures Exec(START, longer).disk == map["t" := k] && Exec(START, longer).now == u.now + 2
  {
    var finish := Finish(v, f, u.now + 1, u.now + 2, true);
    Finishing(u, v, f, u.now + 1, u.now + 2, k);
    longer := AndThen(steps, u, finish, Do(u, finish));
  }

  // ----- A planner's question without a session -----

  /** The planner asked and minted no session. */
  const ASKED := BASE.(status := NeedsClarification, plan := Ran("", 1, 2))
  const ASK := FinishPlan(false, true, false, "")

  lemma AskRun() returns (steps: seq<Step>)
    ensures Exec(START, steps) == Settled(Tagged(ASKED, Some(PlanPhase)), PlanPhase, 3)
  {
    var begun := BASE.(status := Planning, plan := Ran("", 1, 0));
    assert Begun(NewPlan, BASE, Input(""), 1) == begun;
    assert Finished(begun, ASK, 2, 3) == ASKED;
    steps := FirstPhase(NewPlan, "", ASK, begun, Tagged(ASKED, Some(PlanPhase)));
  }

  /** A run reaches a waiting row without a session; with the resume lost its child has no legal begin. */
  lemma LostResumeStrands(at: Time) returns (steps: seq<Step>)
    ensures Exec(START, steps).disk == map["t" := Tagged(ASKED, Some(PlanPhase))]
    ensures DispatchOf(ASKED) == Launch(PlanPhase) && ChildRow(ASKED, false, at) == ASKED
    ensures !BeginLegal(Pick(PlanPhase, ASKED), ASKED)
  {
    steps := AskRun();
  }

  const RESUMED := ASKED.(status := Planning)
  const QUESTION := Files(true, true, true, false, "")
  const BACK := ASKED.(plan := Ran("", 1, 5))

  /** The store after the resume, seen by the dispatcher and by `more` watchers' reads. */
  function Resumed(more: seq<View>): State {
    var g := Tagged(RESUMED, Some(PlanPhase));
    State(map["t" := g], [Live(Tagged(ASKED, Some(PlanPhase)), PlanPhase, true), Snapshot(g)] + more, 4)
  }

  lemma ResumeStep()
    ensures var s := Settled(Tagged(ASKED, Some(PlanPhase)), PlanPhase, 3);
      Enabled(s, Clarify(1, 4, true)) && Do(s, Clarify(1, 4, true)) == Resumed([])
  {
    assert Latest(ASKED) == Some(PlanPhase);
    assert Applied(ASKED, PlanResume, 4) == RESUMED;
  }

  lemma WatchReads()
    ensures Do(Resumed([]), Read("t")) == Resumed([Snapshot(Tagged(RESUMED, Some(PlanPhase)))])
  {
  }

  lemma WatchReaps()
    ensures Do(Resumed([Snapshot(Tagged(RESUMED, Some(PlanPhase)))]), ReapRow(2, QUESTION, 5, true)).disk
      == map["t" := Tagged(BACK, Some(PlanPhase))]
  {
    assert Reaped(RESUMED, QUESTION, 5, 5) == BACK;
  }

  /**
   * A run in which the resume is on disk, a watcher reads the row and reaps it with the question
   * still there, and the row is back at needs-clarification, where the child has no legal begin.
   */
  lemma ReapStrandsChild() returns (steps: seq<Step>, more: seq<Step>)
    ensures Exec(START, steps) == Resumed([]) && Watched(Resumed([]), 2, "t", more)
    ensures Exec(START, steps + more).disk == map["t" := Tagged(BACK, Some(PlanPhase))]
    ensures !BeginLegal(Pick(PlanPhase, BACK), BACK)
  {
    steps := AskRun();
    ResumeStep();
    steps := AndThen(steps, Settled(Tagged(ASKED, Some(PlanPhase)), PlanPhase, 3), Clarify(1, 4, true), Resumed([]));
    more := StrandingWatch(steps);
  }

  lemma StrandingWatch(steps: seq<Step>) returns (more: seq<Step>)
    requires Exec(START, steps) == Resumed([])
    ensures Watched(Resumed([]), 2, "t", more)
    ensures Exec(START, steps + more).disk == map["t" := Tagged(BACK, Some(PlanPhase))]
  {
    var read, reap := Read("t"), ReapRow(2, QUESTION, 5, true);
    var s := Resumed([Snapshot(Tagged(RESUMED, Some(PlanPhase)))]);
    WatchReads();
    WatchReaps();
    var a := AndThen(steps, Resumed([]), read, s);
    var b := AndThen(a, s, reap, Do(s, reap));
    more := [read, reap];
    assert b == steps + more;
    WatchedTwo(Resumed([]), "t", reap);
  }

  lemma WatchedTwo(s: State, id: string, reap: Step)
    requires reap.ReapRow? && reap.v == 2
    ensures Watched(s, 2, id, [Read(id), reap])
  {
    assert [Read(id), reap][1..] == [reap] && [reap][1..] == [];
    assert Watched(Do(s, Read(id)), 2, id, [reap]);
  }

  /** A worker's session does not help once clarification.md is gone: the reap leaves work-done. */
  lemma ReapStrandsWorker(t: Task, at: Time, f: Files, end: Time)
    requires t.status == NeedsClarification && Latest(t) == Some(WorkPhase) && t.Session(WorkPhase) != ""
    requires !f.clarification
    ensures var c := Reaped(ChildRow(t, true, at), f, end, end);
      c.status == WorkDone && Pick(WorkPhase, c) == ResumeWork && !BeginLegal(ResumeWork, c)
  {
    ChildRowIs(t, true, at);
    ReapedFacts(ChildRow(t, true, at), f, end);
    ReapedStatus(Working, f);
  }

  // ----- Ended work, with and without a session -----

  function Worked(session: string): Task {
    BASE.(status := WorkDone, work := Ran(session, 1, 2), worktree := "w")
  }

  const CLEAN_WORK := FinishWork(false, false, "")

  lemma WorkRun(session: string) returns (steps: seq<Step>)
    ensures Exec(START, steps) == Settled(Tagged(Worked(session), None), WorkPhase, 3)
  {
    WorkRows(session);
    steps := FirstPhase(NewWork, session, CLEAN_WORK, AtWork(session), Tagged(Worked(session), None));
  }

  function AtWork(session: string): Task { BASE.(status := Working, work := Ran(session, 1, 0), worktree := "w") }

  lemma WorkRows(session: string)
    ensures Begun(NewWork, BASE, Input(session), 1) == AtWork(session)
    ensures Finished(AtWork(session), CLEAN_WORK, 2, 3) == Worked(session)
  {
  }

  /** A second phase on that row: begun at 4, ended at 5. */
  lemma SecondPhase(session: string, kind: BeginKind, second: string, f: FinishInput, begun: Task, k: Tagged)
    returns (steps: seq<Step>)
    requires (kind == RestartPlan || kind == RestartVerify) && f.Phase() == BeginPhase(kind)
    requires begun == Begun(kind, Worked(session), Input(second), 4) && begun.id == "t" && Storable(begun)
    requires begun.status == ActiveStatus(f.Phase()) && Legal(begun.status, FinishEvent(f))
    requires k == Attributed(Tagged(begun, None), Finished(begun, f, 5, 6), f.Phase()) && k.row.id == "t" && Storable(k.row)
    ensures Exec(START, steps).disk == map["t" := k] && Exec(START, steps).now == 6
  {
    steps := WorkRun(session);
    var g := Tagged(Worked(session), None);
    assert BeginLegal(kind, Worked(session));
    steps := NextPhase(steps, Settled(g, WorkPhase, 3), g, kind, second, f, begun, k);
  }

  const VERIFY_ERROR := FinishVerify(true, false, NoRetries)
  const PLANNED := FinishPlan(false, false, false, "")

  const VERIFYING := Worked("").(status := Verifying, verify := Ran("", 4, 0))
  const ERRED := Worked("").(status := Help, verify := Ran("", 4, 5))

  lemma VerifyingRow()
    ensures Begun(RestartVerify, Worked(""), Input(""), 4) == VERIFYING
  {
  }

  lemma VerifyEnds()
    ensures Finished(VERIFYING, VERIFY_ERROR, 5, 6) == ERRED
  {
  }

  lemma ErredRow()
    ensures DispatchOf(ERRED) == Launch(VerifyPhase) && !BeginLegal(Pick(VerifyPhase, ERRED), ERRED)
  {
  }

  /** A run whose verify errs before it mints a session: the row waits at help, and its restart has no edge. */
  lemma VerifyHelpStrands() returns (steps: seq<Step>)
    ensures Exec(START, steps).disk == map["t" := Tagged(ERRED, Some(VerifyPhase))]
    ensures DispatchOf(ERRED) == Launch(VerifyPhase) && !BeginLegal(Pick(VerifyPhase, ERRED), ERRED)
  {
    VerifyingRow();
    VerifyEnds();
    ErredRow();
    steps := SecondPhase("", RestartVerify, "", VERIFY_ERROR, VERIFYING, Tagged(ERRED, Some(VerifyPhase)));
  }

  /** A run that plans a worked row again: the work session stays, and it has no resume edge from plan-done. */
  lemma PlannedWithSession() returns (steps: seq<Step>, t: Task)
    ensures Exec(START, steps).disk == map["t" := Tagged(t, None)]
    ensures t.status == PlanDone && t.Session(WorkPhase) == "s"
    ensures DispatchOf(t) == Launch(WorkPhase) && Pick(WorkPhase, t) == ResumeWork && !BeginLegal(ResumeWork, t)
  {
    var begun;
    begun, t := PlanRows();
    steps := SecondPhase("s", RestartPlan, "", PLANNED, begun, Tagged(t, None));
  }

  lemma PlanRows() returns (begun: Task, t: Task)
    ensures begun == Worked("s").(status := Planning, plan := Ran("", 4, 0))
    ensures t == Worked("s").(status := PlanDone, plan := Ran("", 4, 5))
    ensures Begun(RestartPlan, Worked("s"), Input(""), 4) == begun && Finished(begun, PLANNED, 5, 6) == t
  {
    begun := Worked("s").(status := Planning, plan := Ran("", 4, 0));
    t := Worked("s").(status := PlanDone, plan := Ran("", 4, 5));
  }

  // ----- Work done again after a verify with a session -----

  const REJECTED := FinishVerify(false, false, NoRetries)
  const REVIEWING := Worked("").(status := Verifying, verify := Ran("s", 4, 0))
  const REJECTS := Worked("").(status := Failed, verify := Ran("s", 4, 5))
  const REWORKING := REJECTS.(status := Working, work := Ran("", 7, 0))
  const REWORKED := REJECTS.(status := WorkDone, work := Ran("", 7, 8))

  lemma ReviewingRow()
    ensures Begun(RestartVerify, Worked(""), Input("s"), 4) == REVIEWING
  {
  }

  lemma RejectedRow()
    ensures Finished(REVIEWING, REJECTED, 5, 6) == REJECTS
  {
  }

  lemma RejectedRun() returns (steps: seq<Step>)
    ensures Exec(START, steps).disk == map["t" := Tagged(REJECTS, None)] && Exec(START, steps).now == 6
  {
    ReviewingRow();
    RejectedRow();
    steps := SecondPhase("", RestartVerify, "s", REJECTED, REVIEWING, Tagged(REJECTS, None));
  }

  lemma ReworkRows()
    ensures BeginLegal(RestartWork, REJECTS) && Begun(RestartWork, REJECTS, Input(""), 7) == REWORKING
    ensures Finished(REWORKING, CLEAN_WORK, 8, 9) == REWORKED
  {
  }

  lemma ReworkedRow()
    ensures REWORKED.status == WorkDone && REWORKED.Session(VerifyPhase) == "s"
    ensures DispatchOf(REWORKED) == Launch(VerifyPhase)
    ensures Pick(VerifyPhase, REWORKED) == ResumeVerify && !BeginLegal(ResumeVerify, REWORKED)
  {
  }

  /** A run that works a rejected row again: the verify session stays, and it has no resume edge from work-done. */
  lemma WorkedWithVerifySession() returns (steps: seq<Step>)
    ensures Exec(START, steps).disk == map["t" := Tagged(REWORKED, None)]
    ensures REWORKED.status == WorkDone && REWORKED.Session(VerifyPhase) == "s"
    ensures DispatchOf(REWORKED) == Launch(VerifyPhase)
    ensures Pick(VerifyPhase, REWORKED) == ResumeVerify && !BeginLegal(ResumeVerify, REWORKED)
  {
    ReworkRows();
    ReworkedRow();
    var g := Tagged(REJECTS, None);
    steps := RejectedRun();
    steps := NextPhase(steps, Exec(START, steps), g, RestartWork, "", CLEAN_WORK, REWORKING, Tagged(REWORKED, None));
  }

  // ----- The reaper -----

  /** A plan without plan.md: the reaper says help where the planner's own finish says planned. */
  lemma MissingArtifact()
    ensures var t := BASE.(status := Planning);
      var f := Files(false, true, false, false, "");
      && Reaped(t, f, 2, 2).status == Help
      && Finished(t, CleanFinish(Planning, f), 2, 3).status == PlanDone
  {
  }

  const HANDED := BASE.(status := Planning, plan := Ran("", 1, 0))
  const NO_FILES := Files(false, false, false, false, "")

  /** A plan handed over to a detached agent that died, and its row read by a watcher. */
  lemma HandedRun() returns (steps: seq<Step>)
    ensures Exec(START, steps) == Settled(Tagged(HANDED, None), PlanPhase, 1)
  {
    var g := Tagged(HANDED, None);
    assert Begun(NewPlan, BASE, Input(""), 1) == HANDED;
    steps := Created(NewPlan, Input(""), HANDED);
    Logging(g, PlanPhase, 1, "");
    steps := AndThen(steps, Running(g, PlanPhase, false, 1), RecordLog(0, "", true), Running(g, PlanPhase, true, 1));
    steps := ReadBack(steps, g, PlanPhase, 1);
  }

  const RESTARTED := HANDED.(plan := Ran("s", 1, 0))
  const OVERWRITTEN := HANDED.(status := Help, plan := Ran("", 1, 3))

  lemma OverwritingReap()
    ensures var s := Rebegun(Tagged(HANDED, None), PlanPhase, 1, Tagged(RESTARTED, None), PlanPhase, 2);
      Overwritten(Do(s, ReapRow(1, NO_FILES, 3, true)))
  {
    HandedReaped();
    ReapedBehind(Tagged(HANDED, None), PlanPhase, 1, Tagged(RESTARTED, None), PlanPhase, 2, NO_FILES,
                 Tagged(OVERWRITTEN, Some(PlanPhase)));
  }

  lemma HandedReaped()
    ensures Reaped(HANDED, NO_FILES, 3, 3) == OVERWRITTEN
  {
  }

  lemma NotCurrent()
    ensures !StillCurrent(HANDED, RESTARTED, NO_FILES)
  {
    assert Unreaped(HANDED, NO_FILES).plan.agent.resumeID == "";
    assert Unreaped(RESTARTED, NO_FILES).plan.agent.resumeID == "s";
  }

  /** A reap of the copy that was read before the second begin. */
  lemma ReapedBehind(g: Tagged, p: Phase, now: Time, h: Tagged, q: Phase, at: Time, f: Files, k: Tagged)
    requires Reapable(g.row.status) && h.row.id == g.row.id && Storable(k.row) && k.row.id == g.row.id
    requires k == Attributed(g, Reaped(g.row, f, at + 1, at + 1), ReapPhase(g.row.status))
    ensures Do(Rebegun(g, p, now, h, q, at), ReapRow(1, f, at + 1, true))
      == State(map[k.row.id := k], [Live(g, p, true), Snapshot(k), Live(h, q, false)], at + 1)
  {
  }

  /** The old section is on disk, at help, while the restarted object is still open. */
  predicate Overwritten(u: State) {
    && u.disk == map["t" := Tagged(OVERWRITTEN, Some(PlanPhase))]
    && |u.views| == 3 && u.views[2] == Live(Tagged(RESTARTED, None), PlanPhase, false)
  }

  /**
   * The probe is released before the reaper writes, so a process that begins in between loses its
   * begin: the restart with session "s" is on disk, and the reap of the older copy puts back the old
   * section with the row at help, while the restarted object is still open.
   */
  lemma ReapOverwritesBegin() returns (steps: seq<Step>)
    ensures Exec(START, steps).disk == map["t" := Tagged(RESTARTED, None)] && !StillCurrent(HANDED, RESTARTED, NO_FILES)
    ensures Overwritten(Do(Exec(START, steps), ReapRow(1, NO_FILES, 3, true)))
  {
    steps := HandedRun();
    NotCurrent();
    assert Begun(RestartPlan, HANDED, Input("s"), 2) == RESTARTED;
    steps := BegunAgain(steps, Tagged(HANDED, None), PlanPhase, 1, RestartPlan, "s", 2, Tagged(RESTARTED, None));
    OverwritingReap();
  }
}
