/**
 * Every run of the task store: any number of processes read rows, begin, record, finish,
 * approve, continue, reap and discard in any order on copies of any age, and any write may fail.
 */
module TaskRuns {
  import opened Common
  import opened Fsm
  import opened TaskRow
  import opened Lifecycle
  import opened LatestPhase
  import opened Reap

  /** A row copy with the phase whose finish or reap last stopped it at help or needs-clarification. */
  datatype Tagged = Tagged(row: Task, stopper: Option<Phase>)

  /**
   * One copy of a row in some process's memory: a plain read, the row inside a lifecycle object, or
   * the row inside one whose begin had no edge.
   */
  datatype View =
    | Snapshot(tag: Tagged)
    | Live(tag: Tagged, phase: Phase, closed: bool)
    | Lost(tag: Tagged, phase: Phase, closed: bool)

  datatype State = State(disk: map<string, Tagged>, views: seq<View>, now: Time)

  const START := State(map[], [], 0)

  /** Step fields: `v` picks a copy, `at` and `end` are clock readings, `io` says whether the write succeeds. */
  datatype Step =
    | Create(kind: BeginKind, base: Task, b: BeginInput, at: Time, io: bool)
    | Read(id: string)
    | Begin(v: nat, kind: BeginKind, b: BeginInput, at: Time, io: bool)
    | LostBegin(v: nat, kind: BeginKind, b: BeginInput, at: Time)
    | RecordSession(v: nat, id: string, io: bool)
    | RecordLog(v: nat, path: string, io: bool)
    | Finish(v: nat, f: FinishInput, end: Time, at: Time, io: bool)
    | Approve(v: nat, at: Time, io: bool)
    | Clarify(v: nat, at: Time, io: bool)
    | ReapRow(v: nat, files: Files, end: Time, io: bool)
    | Stuck(v: nat, at: Time, io: bool)
    | StampSpawn(v: nat, path: string, io: bool)
    | Discard(id: string)

  function ActiveStatus(p: Phase): Status {
    match p case PlanPhase => Planning case WorkPhase => Working case VerifyPhase => Verifying
  }

  function ResumeEvent(p: Phase): Event {
    match p case PlanPhase => PlanResume case WorkPhase => WorkResume case VerifyPhase => VerifyResume
  }

  predicate Stopped(s: Status) { s == Help || s == NeedsClarification }

  /** A row that was never begun carries nothing but its identity. */
  predicate Blank(t: Task) {
    t == NO_TASK.(id := t.id, summary := t.summary, linearIssue := t.linearIssue)
  }

  /**
   * A begin without an edge whose later records leave the row in order: not on a completed row,
   * whose done time it clears, and not of the phase that stopped the row, whose end time it clears.
   */
  predicate Loses(kind: BeginKind, t: Task) {
    && kind in {RestartPlan, RestartWork, ResumeWork, RestartVerify, ResumeVerify} && !BeginLegal(kind, t)
    && t.status != Completed && (Stopped(t.status) ==> Latest(t) != Some(BeginPhase(kind)))
  }

  /** The finish of an object whose begin had no edge has none either, so it writes nothing. */
  lemma LostFinish(kind: BeginKind, t: Task, f: FinishInput)
    requires Loses(kind, t) && f.Phase() == BeginPhase(kind)
    ensures !Legal(t.status, FinishEvent(f))
  {
  }

  predicate Enabled(s: State, step: Step) {
    match step
    case Create(kind, base, _, at, _) => (kind == NewPlan || kind == NewWork) && Blank(base) && s.now < at
    case Read(id) => id in s.disk
    case Begin(v, kind, _, at, _) =>
      v < |s.views| && s.views[v].Snapshot? && s.now < at && kind != NewPlan && kind != NewWork
      && BeginLegal(kind, s.views[v].tag.row)
    case LostBegin(v, kind, _, at) =>
      v < |s.views| && s.views[v].Snapshot? && s.now < at && Loses(kind, s.views[v].tag.row)
    case RecordSession(v, id, _) => v < |s.views| && !s.views[v].Snapshot? && id != ""
    case RecordLog(v, _, _) => v < |s.views| && !s.views[v].Snapshot? && !s.views[v].closed
    case Finish(v, f, end, at, _) =>
      v < |s.views| && s.views[v].Live? && !s.views[v].closed && f.Phase() == s.views[v].phase && s.now < end < at
    case Approve(v, at, _) =>
      v < |s.views| && s.views[v].Snapshot? && s.views[v].tag.row.status == PlanPendingApproval && s.now < at
    case Clarify(v, at, _) =>
      v < |s.views| && s.views[v].Snapshot? && s.views[v].tag.row.status == NeedsClarification
      && Latest(s.views[v].tag.row).Some? && s.now < at
    case ReapRow(v, _, end, _) =>
      v < |s.views| && s.views[v].Snapshot? && Reapable(s.views[v].tag.row.status) && s.now < end
    case Stuck(v, at, _) => v < |s.views| && s.views[v].Snapshot? && s.now < at
    case StampSpawn(v, _, _) => v < |s.views| && s.views[v].Snapshot?
    case Discard(_) => true
  }

  function Put(disk: map<string, Tagged>, g: Tagged, io: bool): map<string, Tagged> {
    if Storable(g.row) && io then disk[g.row.id := g] else disk
  }

  /** The tag after event `e` of phase `p`: a stop is attributed to the phase that caused it. */
  function Attributed(g: Tagged, row: Task, p: Phase): Tagged {
    Tagged(row, if Stopped(row.status) then Some(p) else g.stopper)
  }

  /** The copy a step leaves in the acting process. */
  function Outcome(s: State, step: Step): Tagged
    requires Enabled(s, step) && !step.Discard?
  {
    match step
    case Create(kind, base, b, at, _) => Tagged(Begun(kind, base, b, at), None)
    case Read(id) => s.disk[id]
    case Begin(v, kind, b, at, _) => Tagged(Begun(kind, s.views[v].tag.row, b, at), s.views[v].tag.stopper)
    case LostBegin(v, kind, b, at) => s.views[v].tag.(row := Begun(kind, s.views[v].tag.row, b, at))
    case RecordSession(v, id, _) => s.views[v].tag.(row := s.views[v].tag.row.WithSession(s.views[v].phase, id))
    case RecordLog(v, path, _) => s.views[v].tag.(row := s.views[v].tag.row.(agentLogPath := path))
    case Finish(v, f, end, at, _) =>
      Attributed(s.views[v].tag, Finished(s.views[v].tag.row, f, end, at), s.views[v].phase)
    case Approve(v, at, _) => s.views[v].tag.(row := Applied(s.views[v].tag.row, PlanApprove, at))
    case Clarify(v, at, _) =>
      s.views[v].tag.(row := Applied(s.views[v].tag.row, ResumeEvent(Latest(s.views[v].tag.row).value), at))
    case ReapRow(v, files, end, _) =>
      Attributed(s.views[v].tag, Reaped(s.views[v].tag.row, files, end, end), ReapPhase(s.views[v].tag.row.status))
    case Stuck(v, at, _) => s.views[v].tag.(row := Applied(s.views[v].tag.row, VerifyStuck, at))
    case StampSpawn(v, path, _) => s.views[v].tag.(row := s.views[v].tag.row.(agentLogPath := path))
  }

  /** Whether the step writes the resulting row: an illegal edge writes nothing. */
  predicate Writes(s: State, step: Step)
    requires Enabled(s, step)
  {
    match step
    case Read(_) | LostBegin(_, _, _, _) => false
    case Finish(v, f, _, _, _) => Legal(s.views[v].tag.row.status, FinishEvent(f))
    case Stuck(v, _, _) => Legal(s.views[v].tag.row.status, VerifyStuck)
    case Clarify(v, _, _) => Legal(s.views[v].tag.row.status, ResumeEvent(Latest(s.views[v].tag.row).value))
    case _ => true
  }

  function IoOf(step: Step): bool { if step.Read? || step.LostBegin? || step.Discard? then false else step.io }

  function ViewsAfter(s: State, step: Step, g: Tagged): seq<View>
    requires Enabled(s, step) && !step.Discard?
  {
    match step
    case Create(kind, _, _, _, _) => s.views + [Live(g, BeginPhase(kind), false)]
    case Read(_) => s.views + [Snapshot(g)]
    case Begin(_, kind, _, _, _) => s.views + [Live(g, BeginPhase(kind), false)]
    case LostBegin(_, kind, _, _) => s.views + [Lost(g, BeginPhase(kind), false)]
    case RecordSession(v, _, _) => s.views[v := s.views[v].(tag := g)]
    case RecordLog(v, _, _) => s.views[v := s.views[v].(tag := g, closed := true)]
    case Finish(v, _, _, _, _) => s.views[v := Live(g, s.views[v].phase, true)]
    case Approve(v, _, _) => s.views[v := Snapshot(g)]
    case Clarify(v, _, _) => s.views[v := Snapshot(g)]
    case ReapRow(v, _, _, _) => s.views[v := Snapshot(g)]
    case Stuck(v, _, _) => s.views[v := Snapshot(g)]
    case StampSpawn(v, _, _) => s.views[v := Snapshot(g)]
  }

  function NowAfter(s: State, step: Step): Time {
    match step
    case Create(_, _, _, at, _) => at
    case Begin(_, _, _, at, _) => at
    case LostBegin(_, _, _, at) => at
    case Finish(_, _, _, at, _) => at
    case Approve(_, at, _) => at
    case Clarify(_, at, _) => at
    case ReapRow(_, _, end, _) => end
    case Stuck(_, at, _) => at
    case _ => s.now
  }

  /** One step; a step that cannot be taken changes nothing. */
  function Do(s: State, step: Step): State {
    if !Enabled(s, step) then s
    else if step.Discard? then s.(disk := s.disk - {step.id})
    else
      var g := Outcome(s, step);
      State(if Writes(s, step) then Put(s.disk, g, IoOf(step)) else s.disk, ViewsAfter(s, step, g), NowAfter(s, step))
  }

  function Exec(s: State, steps: seq<Step>): State
    decreases |steps|
  {
    if steps == [] then s else Exec(Do(s, steps[0]), steps[1..])
  }

  // ----- The invariant -----

  /** Phase `p` ended strictly after the other two. */
  predicate EndedLast(t: Task, p: Phase) {
    match p
    case PlanPhase => t.work.endAt < t.plan.endAt && t.verify.endAt < t.plan.endAt
    case WorkPhase => t.plan.endAt < t.work.endAt && t.verify.endAt < t.work.endAt
    case VerifyPhase => t.plan.endAt < t.verify.endAt && t.work.endAt < t.verify.endAt
  }

  predicate GoodRow(g: Tagged, now: Time) {
    && g.row.plan.endAt <= now && g.row.work.endAt <= now && g.row.verify.endAt <= now
    && (g.row.doneAt != 0 <==> g.row.status == Completed)
    && (Stopped(g.row.status) ==> g.stopper.Some? && EndedLast(g.row, g.stopper.value))
  }

  predicate GoodView(v: View, now: Time) {
    && GoodRow(v.tag, now)
    && (v.Live? && !v.closed ==> v.tag.row.status == ActiveStatus(v.phase))
  }

  ghost predicate Good(s: State) {
    && (forall id :: id in s.disk ==> GoodRow(s.disk[id], s.now))
    && (forall i :: 0 <= i < |s.views| ==> GoodView(s.views[i], s.now))
  }

  lemma AppliedActive(t: Task, e: Event, at: Time)
    requires Legal(t.status, e) && Destination(e) != Completed
    ensures Applied(t, e, at) == t.(status := Destination(e))
  {
  }

  /** What a begin's edits leave before its event fires. */
  lemma PreparedGood(kind: BeginKind, g: Tagged, b: BeginInput, at: Time, now: Time)
    requires GoodRow(g, now) && now < at
    requires kind != NewPlan && kind != NewWork && BeginLegal(kind, g.row)
    ensures var t := Prepared(kind, g.row, b, at);
      t.status == g.row.status && t.doneAt == 0 && t.plan.endAt <= at && t.work.endAt <= at && t.verify.endAt <= at
  {
    if kind == ExistingPlan {
      assert g.row.status == Planning;
    }
  }

  lemma BeginLeads(kind: BeginKind, t: Task)
    requires kind != NewPlan && kind != NewWork && BeginLegal(kind, t)
    ensures match BeginEvent(kind)
      case None => t.status == ActiveStatus(BeginPhase(kind))
      case Some(e) => Legal(t.status, e) && Destination(e) == ActiveStatus(BeginPhase(kind))
  {
  }

  /** A begin with an edge moves the prepared row to its phase's active status and changes no more. */
  lemma BegunIs(kind: BeginKind, t: Task, r: Task, b: BeginInput, at: Time)
    requires kind != NewPlan && kind != NewWork && BeginLegal(kind, t)
    requires r == Prepared(kind, t, b, at) && r.status == t.status
    ensures Begun(kind, t, b, at) == r.(status := ActiveStatus(BeginPhase(kind)))
  {
    BeginLeads(kind, t);
    match BeginEvent(kind) {
      case None =>
      case Some(e) => AppliedActive(r, e, at);
    }
  }

  lemma BegunGood(kind: BeginKind, g: Tagged, b: BeginInput, at: Time, now: Time)
    requires GoodRow(g, now) && now < at
    requires kind != NewPlan && kind != NewWork && BeginLegal(kind, g.row)
    ensures GoodRow(Tagged(Begun(kind, g.row, b, at), g.stopper), at)
    ensures Begun(kind, g.row, b, at).status == ActiveStatus(BeginPhase(kind))
  {
    PreparedGood(kind, g, b, at, now);
    BegunIs(kind, g.row, Prepared(kind, g.row, b, at), b, at);
  }

  /** A begin without an edge moves nothing but its own section, and clears an end time that did not stop the row. */
  lemma LostGood(kind: BeginKind, g: Tagged, b: BeginInput, at: Time, now: Time)
    requires GoodRow(g, now) && now < at && Loses(kind, g.row)
    ensures GoodRow(g.(row := Begun(kind, g.row, b, at)), at)
  {
    if Stopped(g.row.status) {
      StrictlyFreshest(g.row, g.stopper.value);
    }
  }

  lemma CreatedGood(kind: BeginKind, base: Task, b: BeginInput, at: Time)
    requires (kind == NewPlan || kind == NewWork) && Blank(base) && 0 < at
    ensures GoodRow(Tagged(Begun(kind, base, b, at), None), at)
    ensures Begun(kind, base, b, at).status == ActiveStatus(BeginPhase(kind))
  {
  }

  lemma FinishedGood(g: Tagged, f: FinishInput, end: Time, at: Time, now: Time)
    requires GoodRow(g, now) && now < end < at && g.row.status == ActiveStatus(f.Phase())
    ensures GoodRow(Attributed(g, Finished(g.row, f, end, at), f.Phase()), at)
  {
  }

  lemma ReapedGood(g: Tagged, f: Files, end: Time, now: Time)
    requires GoodRow(g, now) && now < end && Reapable(g.row.status)
    ensures GoodRow(Attributed(g, Reaped(g.row, f, end, end), ReapPhase(g.row.status)), end)
  {
  }

  /** Events that neither stop a row nor complete it keep a good row good. */
  lemma MovedGood(g: Tagged, e: Event, at: Time, now: Time)
    requires GoodRow(g, now) && now <= at
    requires !Stopped(Destination(e)) && Destination(e) != Completed
    requires g.row.status == Completed ==> !Legal(g.row.status, e)
    ensures GoodRow(g.(row := Applied(g.row, e, at)), at)
  {
    if Legal(g.row.status, e) {
      AppliedActive(g.row, e, at);
    }
  }

  lemma LiveOutcomeGood(s: State, step: Step)
    requires Enabled(s, step) && (step.RecordSession? || step.RecordLog? || step.Finish?)
    requires GoodView(s.views[step.v], s.now)
    ensures GoodRow(Outcome(s, step), NowAfter(s, step))
    ensures step.RecordSession? ==> Outcome(s, step).row.status == s.views[step.v].tag.row.status
  {
    if step.Finish? {
      FinishedGood(s.views[step.v].tag, step.f, step.end, step.at, s.now);
    }
  }

  lemma ClarifiedGood(g: Tagged, p: Phase, at: Time, now: Time)
    requires GoodRow(g, now) && now < at && g.row.status == NeedsClarification
    ensures GoodRow(g.(row := Applied(g.row, ResumeEvent(p), at)), at)
  {
    MovedGood(g, ResumeEvent(p), at, now);
  }

  lemma SnapshotOutcomeGood(s: State, step: Step)
    requires Enabled(s, step) && (step.Approve? || step.Clarify? || step.ReapRow? || step.Stuck? || step.StampSpawn?)
    requires GoodRow(s.views[step.v].tag, s.now)
    ensures GoodRow(Outcome(s, step), NowAfter(s, step))
  {
    var g := s.views[step.v].tag;
    match step {
      case Approve(v, at, _) => MovedGood(g, PlanApprove, at, s.now);
      case Clarify(v, at, _) => ClarifiedGood(g, Latest(g.row).value, at, s.now);
      case ReapRow(v, files, end, _) => ReapedGood(g, files, end, s.now);
      case Stuck(v, at, _) => MovedGood(g, VerifyStuck, at, s.now);
      case StampSpawn(_, _, _) =>
    }
  }

  lemma OutcomeGood(s: State, step: Step)
    requires Good(s) && Enabled(s, step) && !step.Discard?
    ensures GoodRow(Outcome(s, step), NowAfter(s, step))
    ensures (step.Create? || step.Begin?) ==> Outcome(s, step).row.status == ActiveStatus(BeginPhase(step.kind))
    ensures step.RecordSession? ==> Outcome(s, step).row.status == s.views[step.v].tag.row.status
  {
    if step.Create? {
      CreatedGood(step.kind, step.base, step.b, step.at);
    } else if !step.Read? {
      assert GoodView(s.views[step.v], s.now);
      if step.Begin? {
        BegunGood(step.kind, s.views[step.v].tag, step.b, step.at, s.now);
      } else if step.LostBegin? {
        LostGood(step.kind, s.views[step.v].tag, step.b, step.at, s.now);
      } else if step.RecordSession? || step.RecordLog? || step.Finish? {
        LiveOutcomeGood(s, step);
      } else {
        SnapshotOutcomeGood(s, step);
      }
    }
  }

  /** Every step of every process keeps every copy of every row good. */
  lemma StepKeeps(s: State, step: Step)
    requires Good(s)
    ensures Good(Do(s, step))
  {
    if Enabled(s, step) && !step.Discard? {
      OutcomeGood(s, step);
      var g, t := Outcome(s, step), Do(s, step);
      forall i | 0 <= i < |t.views|
        ensures GoodView(t.views[i], t.now)
      {
        if i < |s.views| {
          assert GoodView(s.views[i], s.now);
        }
      }
    }
  }

  lemma {:induction false} RunKeeps(s: State, steps: seq<Step>)
    requires Good(s)
    ensures Good(Exec(s, steps))
    decreases |steps|
  {
    if steps != [] {
      StepKeeps(s, steps[0]);
      RunKeeps(Do(s, steps[0]), steps[1..]);
    }
  }

  /** The status a step that writes takes its row to. */
  predicate MovesTo(s: State, step: Step, to: Status)
    requires Enabled(s, step) && !step.Discard? && !step.Read?
  {
    var from := if step.Create? then Unset else s.views[step.v].tag.row.status;
    match step
    case Create(kind, _, _, _, _) => to == if kind == NewPlan then Planning else Working
    case Begin(_, kind, _, _, _) => to == ActiveStatus(BeginPhase(kind))
    case Finish(_, f, _, _, _) => to == Destination(FinishEvent(f))
    case Approve(_, _, _) => from == PlanPendingApproval && to == PlanDone
    case Clarify(v, _, _) => from == NeedsClarification && to == ActiveStatus(Latest(s.views[v].tag.row).value)
    case ReapRow(_, f, _, _) => Reapable(from) && to == Destination(ReapEvent(from, f))
    case Stuck(_, _, _) => from == Verifying && to == Failed
    case _ => to == from
  }

  lemma ObjectMoves(s: State, step: Step)
    requires Enabled(s, step) && Writes(s, step) && (step.Create? || step.Begin? || step.Finish? || step.RecordSession? || step.RecordLog?)
    ensures MovesTo(s, step, Outcome(s, step).row.status)
  {
    match step {
      case Create(kind, base, b, at, _) => CreatedGood(kind, base, b, at);
      case Begin(v, kind, b, at, _) => BegunStatus(kind, s.views[v].tag.row, b, at);
      case Finish(v, f, end, at, _) => FinishedStatus(s.views[v].tag.row, f, end, at);
      case RecordSession(_, _, _) =>
      case RecordLog(_, _, _) =>
    }
  }

  lemma CopyMoves(s: State, step: Step)
    requires Enabled(s, step) && Writes(s, step)
    requires step.Approve? || step.Clarify? || step.ReapRow? || step.Stuck? || step.StampSpawn?
    ensures MovesTo(s, step, Outcome(s, step).row.status)
  {
    var row := s.views[step.v].tag.row;
    match step {
      case Approve(_, at, _) => AppliedStatus(row, PlanApprove, at);
      case Clarify(_, at, _) => ClarifyMoves(row, Latest(row).value, at);
      case ReapRow(_, f, end, _) => ReapProgress(row, f, end, end);
      case Stuck(_, at, _) => AppliedStatus(row, VerifyStuck, at);
      case StampSpawn(_, _, _) =>
    }
  }

  lemma ClarifyMoves(row: Task, p: Phase, at: Time)
    requires row.status == NeedsClarification
    ensures Applied(row, ResumeEvent(p), at).status == ActiveStatus(p)
  {
    AppliedStatus(row, ResumeEvent(p), at);
  }

  /**
   * What a step that writes leaves on disk: the row of its id, at the status the step is about, with
   * every other row as it was. A failed write leaves the disk as it was.
   */
  lemma StepWrites(s: State, step: Step)
    requires Enabled(s, step) && !step.Discard? && !step.Read? && Writes(s, step)
    ensures MovesTo(s, step, Outcome(s, step).row.status)
    ensures var g, t := Outcome(s, step), Do(s, step);
      g.row.id != "" && g.row.status != Unset ==> t.disk == if IoOf(step) then s.disk[g.row.id := g] else s.disk
  {
    if step.Create? || step.Begin? || step.Finish? || step.RecordSession? || step.RecordLog? {
      ObjectMoves(s, step);
    } else {
      CopyMoves(s, step);
    }
  }

  lemma BegunStatus(kind: BeginKind, t: Task, b: BeginInput, at: Time)
    requires kind != NewPlan && kind != NewWork && BeginLegal(kind, t)
    ensures Begun(kind, t, b, at).status == ActiveStatus(BeginPhase(kind))
  {
    BeginFrame(kind, t, b, at);
    BeginLeads(kind, t);
  }

  // ----- What every run guarantees -----

  /** `g` is a copy of some row that the run left on disk or in some process's memory. */
  ghost predicate Holds(s: State, g: Tagged) {
    || (exists id :: id in s.disk && s.disk[id] == g)
    || (exists i :: 0 <= i < |s.views| && s.views[i].tag == g)
  }

  lemma CopyGood(steps: seq<Step>, g: Tagged)
    requires Holds(Exec(START, steps), g)
    ensures GoodRow(g, Exec(START, steps).now)
  {
    RunKeeps(START, steps);
    var s := Exec(START, steps);
    if i :| 0 <= i < |s.views| && s.views[i].tag == g {
      assert GoodView(s.views[i], s.now);
    }
  }

  lemma StrictlyFreshest(t: Task, p: Phase)
    requires EndedLast(t, p)
    ensures Latest(t) == Some(p)
  {
    FreshestIsLatest(t, p);
  }

  /** Wherever a stopped row is seen, the timestamps name the phase that stopped it. */
  lemma PhaseAttribution(steps: seq<Step>, g: Tagged)
    requires Holds(Exec(START, steps), g) && Stopped(g.row.status)
    ensures g.stopper.Some? && Latest(g.row) == g.stopper
  {
    CopyGood(steps, g);
    StrictlyFreshest(g.row, g.stopper.value);
  }

  /** The done time is recorded on exactly the completed rows. */
  lemma DoneIffCompleted(steps: seq<Step>, g: Tagged)
    requires Holds(Exec(START, steps), g)
    ensures g.row.doneAt != 0 <==> g.row.status == Completed
  {
    CopyGood(steps, g);
  }
}
