/** Which phase a stopped row belongs to: the freshest end time, else the latest resume cursor. */
module LatestPhase {
  import opened Common
  import opened Fsm
  import opened TaskRow

  /** Ties go to the later phase. */
  function Rank(p: Phase): nat {
    match p case VerifyPhase => 0 case WorkPhase => 1 case PlanPhase => 2
  }

  /** `p` ended, and no phase ended later (or at the same reading with a better rank). */
  ghost predicate IsFreshest(t: Task, p: Phase) {
    && t.EndAt(p) != 0
    && forall q: Phase :: t.EndAt(q) < t.EndAt(p) || (t.EndAt(q) == t.EndAt(p) && Rank(p) <= Rank(q))
  }

  function LatestEndAt(t: Task): (r: Option<Phase>)
    ensures r.Some? ==> IsFreshest(t, r.value)
    ensures r.None? ==> forall q: Phase :: t.EndAt(q) == 0
  {
    var v, w, p := t.verify.endAt, t.work.endAt, t.plan.endAt;
    if v == 0 && w == 0 && p == 0 then None
    else if w <= v && p <= v then Some(VerifyPhase)
    else if p <= w then Some(WorkPhase)
    else Some(PlanPhase)
  }

  /** The freshest phase is unique, so `LatestEndAt` returns it whenever there is one. */
  lemma FreshestIsLatest(t: Task, p: Phase)
    ensures IsFreshest(t, p) <==> LatestEndAt(t) == Some(p)
  {
    if IsFreshest(t, p) {
      var r := LatestEndAt(t);
      assert t.EndAt(p) != 0;
      assert Rank(r.value) == Rank(p);
    }
  }

  /** The cascade: end times first, then verify, work and plan cursors. */
  function Latest(t: Task): Option<Phase> {
    match LatestEndAt(t)
    case Some(p) => Some(p)
    case None =>
      if t.Session(VerifyPhase) != "" then Some(VerifyPhase)
      else if t.Session(WorkPhase) != "" then Some(WorkPhase)
      else if t.Session(PlanPhase) != "" then Some(PlanPhase)
      else None
  }

  /** Position `j` holds the best pair: later than all before it, no earlier than all after it. */
  ghost predicate IsBest(pairs: seq<(Phase, Time)>, j: nat, p: Phase, at: Time) {
    && j < |pairs| && pairs[j] == (p, at) && at != 0
    && (forall k :: 0 <= k < j ==> pairs[k].1 < at)
    && (forall k :: j <= k < |pairs| ==> pairs[k].1 <= at)
  }

  /** The scan over the three (phase, end time) pairs, keeping the best one strictly after the last. */
  method ScanEndAt(t: Task) returns (best: Option<Phase>)
    ensures best == LatestEndAt(t)
    ensures best == Some(VerifyPhase) <==> t.verify.endAt != 0 && t.verify.endAt >= t.work.endAt && t.verify.endAt >= t.plan.endAt
    ensures best == Some(WorkPhase) <==> t.work.endAt > t.verify.endAt && t.work.endAt >= t.plan.endAt
    ensures best == Some(PlanPhase) <==> t.plan.endAt > t.verify.endAt && t.plan.endAt > t.work.endAt
  {
    var pairs := [(VerifyPhase, t.verify.endAt), (WorkPhase, t.work.endAt), (PlanPhase, t.plan.endAt)];
    best := None;
    var bestT: Time := 0;
    for i := 0 to |pairs|
      invariant best.None? ==> forall k :: 0 <= k < i ==> pairs[k].1 == 0
      invariant best.Some? ==> exists j | 0 <= j < i :: IsBest(pairs[..i], j, best.value, bestT)
    {
      var p := pairs[i];
      assert forall j, q, at :: IsBest(pairs[..i], j, q, at) && p.1 <= at ==> IsBest(pairs[..i + 1], j, q, at);
      if p.1 == 0 {
        continue;
      }
      if best.None? || bestT < p.1 {
        best, bestT := Some(p.0), p.1;
        assert IsBest(pairs[..i + 1], i, best.value, bestT);
      }
    }
    assert pairs[0] == (VerifyPhase, t.verify.endAt) && pairs[1] == (WorkPhase, t.work.endAt) && pairs[2] == (PlanPhase, t.plan.endAt);
  }
}
