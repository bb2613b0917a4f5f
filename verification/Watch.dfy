/**
 * What may happen to a row between one process's write and another's read while nobody holds its
 * lock: open task lists read rows and reap what they read, and anything may happen to other rows.
 */
module Watch {
  import opened Common
  import opened Fsm
  import opened TaskRow
  import opened Lifecycle
  import opened Reap
  import opened TaskRuns

  /** `c` is row `r` after a reap that found files `f`. */
  predicate ReapOf(r: Task, f: Files, end: Time, c: Task) { Reapable(r.status) && c == Reaped(r, f, end, end) }

  /** `c` is `r`, or `r` reaped. */
  ghost predicate Around(r: Task, c: Task) { c == r || exists f, end :: ReapOf(r, f, end, c) }

  lemma ReapedFacts(r: Task, f: Files, end: Time)
    requires Reapable(r.status)
    ensures var c := Reaped(r, f, end, end);
      && c.id == r.id && !Reapable(c.status) && c.status == Destination(ReapEvent(r.status, f))
      && forall p: Phase :: c.Session(p) == r.Session(p)
  {
    ReapProgress(r, f, end, end);
  }

  lemma AroundFacts(r: Task, c: Task)
    requires Around(r, c)
    ensures c.id == r.id && forall p: Phase :: c.Session(p) == r.Session(p)
    ensures Reapable(c.status) ==> c == r
    ensures c != r ==> Reapable(r.status) && !Reapable(c.status)
  {
    if f, end :| ReapOf(r, f, end, c) {
      ReapedFacts(r, f, end);
    }
  }

  /** A reaped planner or worker row is at needs-clarification exactly when a question was found. */
  lemma ReapedStatus(status: Status, f: Files)
    requires Reapable(status)
    ensures var to := Destination(ReapEvent(status, f));
      && (to == NeedsClarification <==> f.clarification)
      && (to == WorkDone <==> status == Working && !f.clarification)
      && to in (if status == Planning then {NeedsClarification, Help, PlanPendingApproval, PlanDone}
                else {NeedsClarification, WorkDone})
  {
  }

  lemma AroundStatus(r: Task, c: Task)
    requires Around(r, c)
    ensures match r.status
      case Planning => c.status in {Planning, NeedsClarification, Help, PlanPendingApproval, PlanDone}
      case Working => c.status in {Working, NeedsClarification, WorkDone}
      case _ => c == r
  {
    if f, end :| ReapOf(r, f, end, c) {
      ReapedFacts(r, f, end);
      ReapedStatus(r.status, f);
    }
  }

  /** The id of the row a step is about. */
  function Target(s: State, step: Step): string
    requires Enabled(s, step)
  {
    match step
    case Create(_, base, _, _, _) => base.id
    case Read(id) => id
    case Discard(id) => id
    case _ => s.views[step.v].tag.row.id
  }

  /** A step of a watcher: a read, a reap of a copy read since position `n`, or a step about another row. */
  predicate Watcher(s: State, n: nat, id: string, step: Step) {
    Enabled(s, step) ==> step.Read? || (step.ReapRow? && n <= step.v) || Target(s, step) != id
  }

  predicate Watched(s: State, n: nat, id: string, steps: seq<Step>)
    decreases |steps|
  {
    steps == [] || (Watcher(s, n, id, steps[0]) && Watched(Do(s, steps[0]), n, id, steps[1..]))
  }

  /** Rows are stored under their own id, and only writable ones are. */
  ghost predicate Keyed(s: State) { forall k :: k in s.disk ==> s.disk[k].row.id == k && Storable(s.disk[k].row) }

  lemma StepKeyed(s: State, step: Step)
    requires Keyed(s)
    ensures Keyed(Do(s, step))
  {
  }

  lemma {:induction false} RunKeyed(s: State, steps: seq<Step>)
    requires Keyed(s)
    ensures Keyed(Exec(s, steps))
    decreases |steps|
  {
    if steps != [] {
      StepKeyed(s, steps[0]);
      RunKeyed(Do(s, steps[0]), steps[1..]);
    }
  }

  lemma OutcomeId(s: State, step: Step)
    requires Enabled(s, step) && !step.Discard? && !step.Read?
    ensures Outcome(s, step).row.id == Target(s, step)
  {
  }

  /** The row on disk and every copy read since position `n` is around `r`. */
  ghost predicate Window(s: State, n: nat, id: string, r: Task) {
    && n <= |s.views| && r.id == id && id in s.disk && Around(r, s.disk[id].row)
    && forall i :: n <= i < |s.views| ==> CopyAround(s.views[i], id, r)
  }

  ghost predicate CopyAround(v: View, id: string, r: Task) {
    v.tag.row.id == id ==> v.Snapshot? && Around(r, v.tag.row)
  }

  lemma ElsewhereKeeps(s: State, n: nat, id: string, r: Task, step: Step)
    requires Window(s, n, id, r) && Enabled(s, step) && !step.Read? && Target(s, step) != id
    ensures Window(Do(s, step), n, id, r)
  {
    if !step.Discard? {
      OutcomeId(s, step);
      var g, t := Outcome(s, step), Do(s, step);
      assert t.views == ViewsAfter(s, step, g);
      forall i | n <= i < |t.views| ensures CopyAround(t.views[i], id, r) {
        if i < |s.views| && t.views[i] == s.views[i] {
          assert CopyAround(s.views[i], id, r);
        } else {
          assert t.views[i].tag == g;
        }
      }
    }
  }

  lemma ReadKeeps(s: State, n: nat, id: string, r: Task, k: string)
    requires Keyed(s) && Window(s, n, id, r) && k in s.disk
    ensures Window(Do(s, Read(k)), n, id, r)
  {
    var t := Do(s, Read(k));
    assert t.views == s.views + [Snapshot(s.disk[k])] && t.disk == s.disk;
    forall i | n <= i < |t.views| ensures CopyAround(t.views[i], id, r) {
      if i < |s.views| {
        assert CopyAround(s.views[i], id, r);
      }
    }
  }

  lemma ReapKeeps(s: State, n: nat, id: string, r: Task, step: Step)
    requires Window(s, n, id, r) && step.ReapRow? && n <= step.v && Enabled(s, step) && Target(s, step) == id
    ensures Window(Do(s, step), n, id, r)
  {
    var row := s.views[step.v].tag.row;
    assert CopyAround(s.views[step.v], id, r);
    AroundFacts(r, row);
    var g, t := Outcome(s, step), Do(s, step);
    assert ReapOf(r, step.files, step.end, g.row);
    OutcomeId(s, step);
    assert t.views == s.views[step.v := Snapshot(g)];
    forall i | n <= i < |t.views| ensures CopyAround(t.views[i], id, r) {
      if i != step.v {
        assert CopyAround(s.views[i], id, r);
      }
    }
  }

  lemma WatcherKeeps(s: State, n: nat, id: string, r: Task, step: Step)
    requires Keyed(s) && Window(s, n, id, r) && Watcher(s, n, id, step)
    ensures Window(Do(s, step), n, id, r)
  {
    if Enabled(s, step) {
      if step.Read? {
        ReadKeeps(s, n, id, r, step.id);
      } else if Target(s, step) != id {
        ElsewhereKeeps(s, n, id, r, step);
      } else {
        ReapKeeps(s, n, id, r, step);
      }
    }
  }

  /** However long the watchers run, the row on disk is the one that was there, or that one reaped. */
  lemma {:induction false} WatchKeeps(s: State, n: nat, id: string, r: Task, steps: seq<Step>)
    requires Keyed(s) && Window(s, n, id, r) && Watched(s, n, id, steps)
    ensures Window(Exec(s, steps), n, id, r)
    decreases |steps|
  {
    if steps != [] {
      WatcherKeeps(s, n, id, r, steps[0]);
      StepKeyed(s, steps[0]);
      WatchKeeps(Do(s, steps[0]), n, id, r, steps[1..]);
    }
  }

  // ----- Reaps of older copies -----

  /** A reapable row with what its reap rewrites taken out: the phase's end time and a refreshed summary. */
  function Unreaped(t: Task, f: Files): Task
    requires Reapable(t.status)
  {
    ReapEdits(t.WithEndAt(ReapPhase(t.status), 0), f)
  }

  /** The copy differs from the row at most in what the reap rewrites anyway. */
  predicate StillCurrent(copy: Task, row: Task, f: Files) {
    Reapable(copy.status) && row.status == copy.status && Unreaped(copy, f) == Unreaped(row, f)
  }

  lemma ReapedIs(t: Task, f: Files, end: Time)
    requires Reapable(t.status)
    ensures Reaped(t, f, end, end) ==
      Unreaped(t, f).WithEndAt(ReapPhase(t.status), end).(status := Destination(ReapEvent(t.status, f)))
  {
    ReapProgress(t, f, end, end);
  }

  lemma ReapUndone(t: Task, f: Files, end: Time)
    requires Reapable(t.status)
    ensures Reaped(t, f, end, end).WithEndAt(ReapPhase(t.status), 0).(status := t.status) == Unreaped(t, f)
  {
    ReapedIs(t, f, end);
  }

  /** Rows of different phases are never reaped to the same row: each gets its own new end time. */
  lemma OtherPhaseReaped(copy: Task, row: Task, f: Files, end: Time)
    requires Reapable(copy.status) && Reapable(row.status) && copy.status != row.status
    requires row.plan.endAt < end && row.work.endAt < end
    ensures Reaped(copy, f, end, end) != Reaped(row, f, end, end)
  {
    ReapedIs(copy, f, end);
    ReapedIs(row, f, end);
  }

  lemma ReapedSame(copy: Task, row: Task, f: Files, end: Time)
    requires Reapable(copy.status) && row.plan.endAt < end && row.work.endAt < end
    ensures ReapOf(row, f, end, Reaped(copy, f, end, end)) <==> StillCurrent(copy, row, f)
  {
    if Reapable(row.status) && row.status != copy.status {
      OtherPhaseReaped(copy, row, f, end);
    } else if Reapable(row.status) {
      ReapUndone(copy, f, end);
      ReapUndone(row, f, end);
      ReapedIs(copy, f, end);
      ReapedIs(row, f, end);
    }
  }

  lemma ReapStep(s: State, v: nat, f: Files, end: Time)
    requires Enabled(s, ReapRow(v, f, end, true)) && s.views[v].tag.row.id != ""
    ensures var copy, t := s.views[v].tag.row, Do(s, ReapRow(v, f, end, true));
      copy.id in t.disk && t.disk[copy.id].row == Reaped(copy, f, end, end)
  {
    ReapedFacts(s.views[v].tag.row, f, end);
  }

  /**
   * The reaper writes the reap of the copy it read, whatever is on disk by then. In every run, what
   * it leaves is the reap of the row that was on disk exactly when the copy is still current: the
   * row is there at the same status and differs from the copy at most in what the reap rewrites.
   */
  lemma ReapOfDiskRow(steps: seq<Step>, v: nat, f: Files, end: Time)
    requires Enabled(Exec(START, steps), ReapRow(v, f, end, true)) && Exec(START, steps).views[v].tag.row.id != ""
    ensures var s := Exec(START, steps);
      var copy, t := s.views[v].tag.row, Do(s, ReapRow(v, f, end, true));
      && copy.id in t.disk && t.disk[copy.id].row == Reaped(copy, f, end, end)
      && (copy.id in s.disk ==>
            (ReapOf(s.disk[copy.id].row, f, end, t.disk[copy.id].row) <==> StillCurrent(copy, s.disk[copy.id].row, f)))
  {
    var s := Exec(START, steps);
    var copy := s.views[v].tag.row;
    ReapStep(s, v, f, end);
    if copy.id in s.disk {
      RunKeeps(START, steps);
      assert GoodRow(s.disk[copy.id], s.now);
      ReapedSame(copy, s.disk[copy.id].row, f, end);
    }
  }
}
