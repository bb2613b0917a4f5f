/** Any sequence of calls on one lifecycle object after its begin. */
module FinishOnce {
  import opened Common
  import opened Fsm
  import opened TaskRow
  import opened Lifecycle
  import opened TaskRuns

  datatype Call =
    | SessionCall(id: string)
    | LogCall(path: string)
    | FinishCall(f: FinishInput, end: Time, at: Time)

  /** `fired` lists the events the object's own calls applied, in order. */
  datatype Object = Object(phase: Phase, row: Task, closed: bool, fired: seq<Event>)

  /** What the three methods of a lifecycle object do, in terms of the row functions. */
  function Called(o: Object, c: Call): Object {
    match c
    case SessionCall(id) => if id == "" then o else o.(row := o.row.WithSession(o.phase, id))
    case LogCall(path) => if o.closed then o else o.(row := o.row.(agentLogPath := path), closed := true)
    case FinishCall(f, end, at) =>
      if o.closed then o
      else o.(row := Finished(o.row, f, end, at), closed := true,
              fired := if Legal(o.row.status, FinishEvent(f)) then o.fired + [FinishEvent(f)] else o.fired)
  }

  function CalledAll(o: Object, calls: seq<Call>): Object
    decreases |calls|
  {
    if calls == [] then o else CalledAll(Called(o, calls[0]), calls[1..])
  }

  /** The first call that closes the object. */
  function FirstCloser(calls: seq<Call>): Option<Call> {
    if calls == [] then None
    else if calls[0].SessionCall? then FirstCloser(calls[1..])
    else Some(calls[0])
  }

  /** Finishes are of the object's own phase. */
  ghost predicate OwnCalls(p: Phase, calls: seq<Call>) {
    forall i :: 0 <= i < |calls| && calls[i].FinishCall? ==> calls[i].f.Phase() == p
  }

  lemma {:induction false} ClosedStays(o: Object, calls: seq<Call>)
    requires o.closed
    ensures var r := CalledAll(o, calls); r.closed && r.row.status == o.row.status && r.fired == o.fired
    decreases |calls|
  {
    if calls != [] {
      ClosedStays(Called(o, calls[0]), calls[1..]);
    }
  }

  /** The finish of an active phase always has an edge, out of every active status. */
  lemma FinishEdge(f: FinishInput)
    ensures Legal(ActiveStatus(f.Phase()), FinishEvent(f))
    ensures Destination(FinishEvent(f)) !in {Planning, Working, Verifying}
  {
  }

  /**
   * After a legal begin the first closing call decides everything: a finish fires its event
   * and takes the row out of the active statuses for good, a log hand-off leaves the row
   * active for the reaper, and nothing that follows fires anything.
   */
  lemma {:induction false} FirstCloserDecides(o: Object, calls: seq<Call>)
    requires !o.closed && o.row.status == ActiveStatus(o.phase) && OwnCalls(o.phase, calls)
    ensures var r := CalledAll(o, calls);
      match FirstCloser(calls)
      case Some(FinishCall(f, _, _)) =>
        r.closed && r.row.status == Destination(FinishEvent(f)) && r.fired == o.fired + [FinishEvent(f)]
        && r.row.status !in {Planning, Working, Verifying}
      case Some(_) => r.closed && r.row.status == ActiveStatus(o.phase) && r.fired == o.fired
      case None => !r.closed && r.row.status == ActiveStatus(o.phase) && r.fired == o.fired
    decreases |calls|
  {
    if calls != [] {
      var next := Called(o, calls[0]);
      if calls[0].SessionCall? {
        assert OwnCalls(o.phase, calls[1..]);
        FirstCloserDecides(next, calls[1..]);
      } else {
        if calls[0].FinishCall? {
          FinishEdge(calls[0].f);
          FinishedStatus(o.row, calls[0].f, calls[0].end, calls[0].at);
        }
        ClosedStays(next, calls[1..]);
      }
    }
  }

  // ----- The calls of the classes -----

  /** The same call, up to the clock readings of a finish. */
  predicate SameCall(c: Call, done: Call) {
    match c
    case FinishCall(f, _, _) => done.FinishCall? && done.f == f
    case _ => done == c
  }

  /** What the observers hear of the events a call added. */
  function Heard(from: Status, row: Task, before: seq<Event>, after: seq<Event>): seq<Notice> {
    if after == before || after == [] then []
    else [Notice(Transition(from, after[|after| - 1], row.status), row)]
  }

  /** A call on a plan object does what it says here; the ghost call carries the clock readings taken. */
  method CallPlan(lc: PlanLifecycle, c: Call, io: bool, ghost fired: seq<Event>) returns (ghost done: Call, ghost r: Object)
    requires c.FinishCall? ==> c.f.FinishPlan?
    modifies lc, lc.store, lc.clock
    ensures SameCall(c, done) && r == Called(Object(PlanPhase, old(lc.task), old(lc.closed), fired), done)
    ensures lc.task == r.row && lc.closed == r.closed
    ensures lc.store.notices == old(lc.store.notices) + Heard(old(lc.task).status, lc.task, fired, r.fired)
  {
    done := c;
    match c {
      case SessionCall(id) => lc.RecordResumeSession(id, io);
      case LogCall(path) => lc.RecordAgentLog(path, io);
      case FinishCall(f, _, _) =>
        lc.Finish(f.runErr, f.clarification, f.approval, f.summary, io);
        done := FinishCall(f, lc.task.plan.endAt, lc.clock.now);
    }
    r := Called(Object(PlanPhase, old(lc.task), old(lc.closed), fired), done);
  }

  /** A call on a work object does what it says here; the ghost call carries the clock readings taken. */
  method CallWork(lc: WorkLifecycle, c: Call, io: bool, ghost fired: seq<Event>) returns (ghost done: Call, ghost r: Object)
    requires c.FinishCall? ==> c.f.FinishWork?
    modifies lc, lc.store, lc.clock
    ensures SameCall(c, done) && r == Called(Object(WorkPhase, old(lc.task), old(lc.closed), fired), done)
    ensures lc.task == r.row && lc.closed == r.closed
    ensures lc.store.notices == old(lc.store.notices) + Heard(old(lc.task).status, lc.task, fired, r.fired)
  {
    done := c;
    match c {
      case SessionCall(id) => lc.RecordResumeSession(id, io);
      case LogCall(path) => lc.RecordAgentLog(path, io);
      case FinishCall(f, _, _) =>
        lc.Finish(f.runErr, f.clarification, f.detectedURL, io);
        done := FinishCall(f, lc.task.work.endAt, lc.clock.now);
    }
    r := Called(Object(WorkPhase, old(lc.task), old(lc.closed), fired), done);
  }

  /** A call on a verify object does what it says here; the ghost call carries the clock readings taken. */
  method CallVerify(lc: VerifyLifecycle, c: Call, io: bool, ghost fired: seq<Event>) returns (ghost done: Call, ghost r: Object)
    requires c.FinishCall? ==> c.f.FinishVerify?
    modifies lc, lc.store, lc.clock
    ensures SameCall(c, done) && r == Called(Object(VerifyPhase, old(lc.task), old(lc.closed), fired), done)
    ensures lc.task == r.row && lc.closed == r.closed
    ensures lc.store.notices == old(lc.store.notices) + Heard(old(lc.task).status, lc.task, fired, r.fired)
  {
    done := c;
    match c {
      case SessionCall(id) => lc.RecordResumeSession(id, io);
      case LogCall(path) => lc.RecordAgentLog(path, io);
      case FinishCall(f, _, _) =>
        lc.Finish(f.outcome, f.runErr, f.clarification, io);
        done := FinishCall(f, lc.task.verify.endAt, lc.clock.now);
    }
    r := Called(Object(VerifyPhase, old(lc.task), old(lc.closed), fired), done);
  }
}
