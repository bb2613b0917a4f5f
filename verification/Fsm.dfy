/** The task status machine: the edge table and the lookup over it. */
module Fsm {
  import opened Common

  /** `Unset` is the empty status of a row that was never begun. */
  datatype Status =
    | Unset | Planning | PlanPendingApproval | PlanDone | Working | WorkDone
    | Verifying | NeedsClarification | Completed | Failed | Help

  datatype Event =
    | PlanBegin | PlanRestart | PlanDoneEv | PlanAwaitApproval | PlanApprove | PlanQuit | PlanError
    | PlanNeedsClarification | PlanResume
    | ReaperPlanDone | ReaperPlanAwaitApproval | ReaperPlanFail | ReaperPlanNeedsClarification
    | WorkBegin | WorkRestart | WorkResume | WorkDoneEv | WorkQuit | WorkError | WorkNeedsClarification
    | ReaperWorkDone | ReaperWorkNeedsClarification
    | VerifyBegin | VerifyRestart | VerifyResume | VerifyPass | VerifyFail | VerifyQuit | VerifyError
    | VerifyStuck | VerifyNeedsClarification | ReaperVerifyNeedsClarification

  datatype Transition = Transition(from: Status, event: Event, to: Status)

  // Every legal edge, grouped by source status in the order the program lists them.

  const FROM_PLANNING: seq<Transition> := [
    Transition(Planning, PlanDoneEv, PlanDone),
    Transition(Planning, PlanAwaitApproval, PlanPendingApproval),
    Transition(Planning, PlanError, Help),
    Transition(Planning, PlanQuit, Help),
    Transition(Planning, ReaperPlanDone, PlanDone),
    Transition(Planning, ReaperPlanAwaitApproval, PlanPendingApproval),
    Transition(Planning, ReaperPlanFail, Help),
    Transition(Planning, PlanNeedsClarification, NeedsClarification),
    Transition(Planning, ReaperPlanNeedsClarification, NeedsClarification),
    Transition(Planning, PlanRestart, Planning),
    Transition(Planning, PlanResume, Planning),
    Transition(Planning, WorkRestart, Working),
    Transition(Planning, VerifyBegin, Verifying)
  ]

  const FROM_PLAN_PENDING_APPROVAL: seq<Transition> := [
    Transition(PlanPendingApproval, PlanApprove, PlanDone),
    Transition(PlanPendingApproval, PlanRestart, Planning),
    Transition(PlanPendingApproval, PlanResume, Planning)
  ]

  const FROM_PLAN_DONE: seq<Transition> := [
    Transition(PlanDone, PlanRestart, Planning),
    Transition(PlanDone, PlanResume, Planning),
    Transition(PlanDone, WorkBegin, Working),
    Transition(PlanDone, WorkRestart, Working),
    Transition(PlanDone, VerifyBegin, Verifying),
    Transition(PlanDone, VerifyResume, Verifying)
  ]

  const FROM_WORKING: seq<Transition> := [
    Transition(Working, PlanRestart, Planning),
    Transition(Working, VerifyRestart, Verifying),
    Transition(Working, WorkRestart, Working),
    Transition(Working, WorkDoneEv, WorkDone),
    Transition(Working, WorkQuit, Help),
    Transition(Working, WorkError, Help),
    Transition(Working, WorkResume, Working),
    Transition(Working, ReaperWorkDone, WorkDone),
    Transition(Working, WorkNeedsClarification, NeedsClarification),
    Transition(Working, ReaperWorkNeedsClarification, NeedsClarification)
  ]

  const FROM_WORK_DONE: seq<Transition> := [
    Transition(WorkDone, PlanRestart, Planning),
    Transition(WorkDone, WorkRestart, Working),
    Transition(WorkDone, VerifyBegin, Verifying),
    Transition(WorkDone, VerifyRestart, Verifying)
  ]

  const FROM_VERIFYING: seq<Transition> := [
    Transition(Verifying, VerifyBegin, Verifying),
    Transition(Verifying, VerifyRestart, Verifying),
    Transition(Verifying, VerifyPass, Completed),
    Transition(Verifying, VerifyFail, Failed),
    Transition(Verifying, VerifyStuck, Failed),
    Transition(Verifying, VerifyError, Help),
    Transition(Verifying, VerifyQuit, Help),
    Transition(Verifying, VerifyResume, Verifying),
    Transition(Verifying, VerifyNeedsClarification, NeedsClarification),
    Transition(Verifying, ReaperVerifyNeedsClarification, NeedsClarification)
  ]

  const FROM_FAILED: seq<Transition> := [
    Transition(Failed, PlanRestart, Planning),
    Transition(Failed, WorkRestart, Working),
    Transition(Failed, VerifyRestart, Verifying),
    Transition(Failed, PlanResume, Planning),
    Transition(Failed, WorkResume, Working),
    Transition(Failed, VerifyResume, Verifying)
  ]

  const FROM_COMPLETED: seq<Transition> := [
    Transition(Completed, PlanRestart, Planning),
    Transition(Completed, PlanResume, Planning),
    Transition(Completed, WorkRestart, Working),
    Transition(Completed, WorkResume, Working),
    Transition(Completed, VerifyRestart, Verifying),
    Transition(Completed, VerifyResume, Verifying)
  ]

  const FROM_HELP: seq<Transition> := [
    Transition(Help, PlanRestart, Planning),
    Transition(Help, PlanResume, Planning),
    Transition(Help, WorkRestart, Working),
    Transition(Help, WorkResume, Working),
    Transition(Help, VerifyRestart, Verifying),
    Transition(Help, VerifyResume, Verifying)
  ]

  const FROM_NEEDS_CLARIFICATION: seq<Transition> := [
    Transition(NeedsClarification, PlanResume, Planning),
    Transition(NeedsClarification, WorkResume, Working),
    Transition(NeedsClarification, VerifyResume, Verifying)
  ]

  const FROM_UNSET: seq<Transition> := [
    Transition(Unset, PlanBegin, Planning)
  ]

  const TRANSITIONS: seq<Transition> :=
    FROM_PLANNING + FROM_PLAN_PENDING_APPROVAL + FROM_PLAN_DONE + FROM_WORKING + FROM_WORK_DONE +
    FROM_VERIFYING + FROM_FAILED + FROM_COMPLETED + FROM_HELP + FROM_NEEDS_CLARIFICATION + FROM_UNSET

  /** Where an event leads. Events name causes, yet each one has a single destination. */
  function Destination(e: Event): Status {
    match e
    case PlanBegin | PlanRestart | PlanResume => Planning
    case PlanDoneEv | ReaperPlanDone | PlanApprove => PlanDone
    case PlanAwaitApproval | ReaperPlanAwaitApproval => PlanPendingApproval
    case WorkBegin | WorkRestart | WorkResume => Working
    case WorkDoneEv | ReaperWorkDone => WorkDone
    case VerifyBegin | VerifyRestart | VerifyResume => Verifying
    case VerifyPass => Completed
    case VerifyFail | VerifyStuck => Failed
    case PlanQuit | PlanError | ReaperPlanFail | WorkQuit | WorkError | VerifyQuit | VerifyError => Help
    case PlanNeedsClarification | ReaperPlanNeedsClarification
       | WorkNeedsClarification | ReaperWorkNeedsClarification
       | VerifyNeedsClarification | ReaperVerifyNeedsClarification => NeedsClarification
  }

  /** The statuses an event may fire from. */
  predicate Legal(from: Status, e: Event) {
    match e
    case PlanBegin => from == Unset
    case PlanDoneEv | ReaperPlanDone | PlanAwaitApproval | ReaperPlanAwaitApproval
       | PlanQuit | PlanError | ReaperPlanFail
       | PlanNeedsClarification | ReaperPlanNeedsClarification => from == Planning
    case PlanApprove => from == PlanPendingApproval
    case PlanRestart => from != Unset && from != Verifying && from != NeedsClarification
    case PlanResume => from != Unset && from != Working && from != WorkDone && from != Verifying
    case WorkBegin => from == PlanDone
    case WorkRestart => from != Unset && from != PlanPendingApproval && from != Verifying && from != NeedsClarification
    case WorkResume => from == Working || from == Failed || from == Completed || from == Help || from == NeedsClarification
    case WorkDoneEv | ReaperWorkDone | WorkQuit | WorkError
       | WorkNeedsClarification | ReaperWorkNeedsClarification => from == Working
    case VerifyBegin => from == Planning || from == PlanDone || from == WorkDone || from == Verifying
    case VerifyRestart => from == Working || from == WorkDone || from == Verifying || from == Failed || from == Completed || from == Help
    case VerifyResume => from == PlanDone || from == Verifying || from == Failed || from == Completed || from == Help || from == NeedsClarification
    case VerifyPass | VerifyFail | VerifyStuck | VerifyQuit | VerifyError
       | VerifyNeedsClarification | ReaperVerifyNeedsClarification => from == Verifying
  }

  /** The edge function: `None` stands for IllegalTransitionError. */
  function Edge(from: Status, e: Event): Option<Status> {
    if Legal(from, e) then Some(Destination(e)) else None
  }

  /** `edges` is exactly what the declarative description allows out of `from`. */
  ghost predicate EdgesOf(from: Status, edges: seq<Transition>, tr: Transition) {
    tr in edges <==> tr.from == from && Edge(tr.from, tr.event) == Some(tr.to)
  }

  lemma PlanningGroup(tr: Transition)
    ensures EdgesOf(Planning, FROM_PLANNING, tr)
  {
  }

  lemma PlannedGroups(tr: Transition)
    ensures EdgesOf(PlanPendingApproval, FROM_PLAN_PENDING_APPROVAL, tr)
    ensures EdgesOf(PlanDone, FROM_PLAN_DONE, tr)
  {
  }

  lemma WorkingGroup(tr: Transition)
    ensures EdgesOf(Working, FROM_WORKING, tr)
  {
  }

  lemma WorkDoneGroup(tr: Transition)
    ensures EdgesOf(WorkDone, FROM_WORK_DONE, tr)
  {
  }

  lemma VerifyingGroup(tr: Transition)
    ensures EdgesOf(Verifying, FROM_VERIFYING, tr)
  {
  }

  lemma EndedGroups(tr: Transition)
    ensures EdgesOf(Failed, FROM_FAILED, tr)
    ensures EdgesOf(Completed, FROM_COMPLETED, tr)
  {
  }

  lemma WaitingGroups(tr: Transition)
    ensures EdgesOf(Help, FROM_HELP, tr)
    ensures EdgesOf(NeedsClarification, FROM_NEEDS_CLARIFICATION, tr)
    ensures EdgesOf(Unset, FROM_UNSET, tr)
  {
  }

  lemma InConcat<T>(x: T, a: seq<T>, b: seq<T>, c: seq<T>, d: seq<T>, e: seq<T>, f: seq<T>,
                    g: seq<T>, h: seq<T>, i: seq<T>, j: seq<T>, k: seq<T>)
    ensures x in a + b + c + d + e + f + g + h + i + j + k <==>
              (x in a || x in b || x in c || x in d || x in e || x in f
              || x in g || x in h || x in i || x in j || x in k)
  {
  }

  /** The table and the declarative description are the same relation. */
  lemma TableIsEdge(tr: Transition)
    ensures tr in TRANSITIONS <==> Edge(tr.from, tr.event) == Some(tr.to)
  {
    PlanningGroup(tr);
    PlannedGroups(tr);
    WorkingGroup(tr);
    WorkDoneGroup(tr);
    VerifyingGroup(tr);
    EndedGroups(tr);
    WaitingGroups(tr);
    InConcat(tr, FROM_PLANNING, FROM_PLAN_PENDING_APPROVAL, FROM_PLAN_DONE, FROM_WORKING, FROM_WORK_DONE,
             FROM_VERIFYING, FROM_FAILED, FROM_COMPLETED, FROM_HELP, FROM_NEEDS_CLARIFICATION, FROM_UNSET);
  }

  lemma TableSize()
    ensures |TRANSITIONS| == 68
  {
  }

  /**
   * What the table allows out of a stop: an ended or helpless row can restart or resume every phase
   * and nothing else, a waiting row can only resume, and a row without a status can only be planned.
   */
  lemma Reentry(s: Status, e: Event)
    ensures s in {Failed, Completed, Help} ==>
      (Legal(s, e) <==> e in {PlanRestart, WorkRestart, VerifyRestart, PlanResume, WorkResume, VerifyResume})
    ensures s == NeedsClarification ==> (Legal(s, e) <==> e in {PlanResume, WorkResume, VerifyResume})
    ensures s == Unset ==> (Legal(s, e) <==> e == PlanBegin)
  {
  }

  /** A row at verifying is left by a verify's outcome only, only a pass completes, and no edge leads back to no status. */
  lemma Exits(s: Status, e: Event)
    ensures s == Verifying && Legal(s, e) ==> Destination(e) in {Verifying, Completed, Failed, Help, NeedsClarification}
    ensures Destination(e) != Unset
    ensures Destination(e) == Completed ==> e == VerifyPass && (Legal(s, e) <==> s == Verifying)
  {
  }

  /** The scan: the destination of the first row that matches, `None` when no row does. */
  method FirstMatch(table: seq<Transition>, from: Status, e: Event) returns (to: Option<Status>)
    ensures to.Some? ==> Transition(from, e, to.value) in table
    ensures to.None? ==> forall t :: Transition(from, e, t) !in table
  {
    for i := 0 to |table|
      invariant forall k :: 0 <= k < i ==> !(table[k].from == from && table[k].event == e)
    {
      if table[i].from == from && table[i].event == e {
        assert table[i] == Transition(from, e, table[i].to);
        return Some(table[i].to);
      }
    }
    return None;
  }

  method Apply(from: Status, e: Event) returns (to: Option<Status>)
    ensures to == Edge(from, e)
  {
    to := FirstMatch(TRANSITIONS, from, e);
    TableIsEdge(Transition(from, e, if to.Some? then to.value else Destination(e)));
  }
}
