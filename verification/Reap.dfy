/** The reaper: finalises rows whose lock file nobody holds any more. */
module Reap {
  import opened Common
  import opened Fsm
  import opened TaskRow
  import opened Lifecycle
  import FlockRuns
  import LockFile
  import opened LockTrace

  /** What the reaper finds in a task directory; `summary` is derived from requirements.md. */
  datatype Files = Files(clarification: bool, requirements: bool, plan: bool, approval: bool, summary: string)

  predicate Reapable(s: Status) { s == Planning || s == Working }

  function ReapPhase(s: Status): Phase { if s == Planning then PlanPhase else WorkPhase }

  function ReapEvent(s: Status, f: Files): Event {
    if s == Planning then
      if f.clarification then ReaperPlanNeedsClarification
      else if !f.requirements || !f.plan then ReaperPlanFail
      else if f.approval then ReaperPlanAwaitApproval
      else ReaperPlanDone
    else
      if f.clarification then ReaperWorkNeedsClarification else ReaperWorkDone
  }

  function ReapEdits(t: Task, f: Files): Task {
    var planned := t.status == Planning && !f.clarification && f.requirements && f.plan;
    if planned && f.summary != "" then t.(summary := f.summary) else t
  }

  function Reaped(t: Task, f: Files, endAt: Time, now: Time): Task {
    Applied(ReapEdits(t.WithEndAt(ReapPhase(t.status), endAt), f), ReapEvent(t.status, f), now)
  }

  /** Every reaper edge is legal from its source status and leaves the active statuses. */
  lemma ReapProgress(t: Task, f: Files, endAt: Time, now: Time)
    requires Reapable(t.status)
    ensures Legal(t.status, ReapEvent(t.status, f))
    ensures Reaped(t, f, endAt, now).status == Destination(ReapEvent(t.status, f))
    ensures Reaped(t, f, endAt, now).status !in {Planning, Working, Verifying, Unset, Completed}
  {
  }

  /**
   * Field by field, what a reap does to a row: the end time of its phase, the status its files call
   * for, and the summary of a complete plan that has one. It touches nothing else.
   */
  lemma ReapFields(t: Task, f: Files, endAt: Time, now: Time)
    requires Reapable(t.status)
    ensures var r := Reaped(t, f, endAt, now);
      r.status == if f.clarification then NeedsClarification
                  else if t.status == Working then WorkDone
                  else if !f.requirements || !f.plan then Help
                  else if f.approval then PlanPendingApproval else PlanDone
    ensures var r := Reaped(t, f, endAt, now);
      && r.summary == (if t.status == Planning && !f.clarification && f.requirements && f.plan && f.summary != ""
                       then f.summary else t.summary)
      && r.plan == (if t.status == Planning then t.plan.(endAt := endAt) else t.plan)
      && r.work == (if t.status == Working then t.work.(endAt := endAt) else t.work)
      && r.verify == t.verify
    ensures var r := Reaped(t, f, endAt, now);
      && r.id == t.id && r.doneAt == t.doneAt && r.worktree == t.worktree && r.linearIssue == t.linearIssue
      && r.pullRequestURL == t.pullRequestURL && r.agentLogPath == t.agentLogPath
  {
    ReapProgress(t, f, endAt, now);
  }

  /** The finish the phase itself would have run after a clean turn on the same files. */
  function CleanFinish(s: Status, f: Files): FinishInput {
    if s == Planning then FinishPlan(false, f.clarification, f.approval, f.summary)
    else FinishWork(false, f.clarification, "")
  }

  lemma EventsAgree(s: Status, f: Files)
    requires Reapable(s)
    ensures Legal(s, FinishEvent(CleanFinish(s, f)))
    ensures Destination(ReapEvent(s, f)) == Destination(FinishEvent(CleanFinish(s, f))) <==>
              (f.clarification || s == Working || (f.requirements && f.plan))
  {
  }

  /**
   * Reaping agrees with a clean finish on the same files exactly when a question was left,
   * or the phase is work, or both planner artifacts exist. Otherwise the reaper says `help`
   * where the phase would have said it is planned.
   */
  lemma ReapAgreesWithFinish(t: Task, f: Files, endAt: Time, now: Time)
    requires Reapable(t.status)
    ensures Reaped(t, f, endAt, now).status == Finished(t, CleanFinish(t.status, f), endAt, now).status <==>
              (f.clarification || t.status == Working || (f.requirements && f.plan))
  {
    ReapProgress(t, f, endAt, now);
    FinishedStatus(t, CleanFinish(t.status, f), endAt, now);
    EventsAgree(t.status, f);
  }

  /** A prober about to look at a lock file. */
  ghost predicate Ready(w: LockFile.World, me: nat)
    reads w
  {
    w.Valid() && LockFile.Fresh(w.s, me, FlockRuns.Probing)
  }

  /**
   * Probes the row's lock file and gives it up again: `owned` says that the prober held the lock in
   * between, which it did exactly when the file was there to be opened and the lock free at the
   * steps `at` that looked. Between the release and the return anybody may take the lock.
   */
  method ProbeLock(w: LockFile.World, me: nat, io: Calls) returns (owned: bool, ghost at: Look)
    requires Ready(w, me)
    modifies w
    ensures w.Valid() && old(w.trace) <= w.trace
    ensures Looked(w.trace, |old(w.trace)|, me, false, io, at, owned)
    ensures me !in old(w.s).won && (owned <==> me in w.s.won)
    ensures me in w.s.actors && !FlockRuns.Owns(w.s.actors[me].at)
  {
    var failed;
    owned, failed, at := LockFile.ProbeAndRelease(w, me, io);
    ghost var t := w.trace;
    w.Others(me);
    LookedStays(t, w.trace, |old(w.trace)|, me, false, io, at, owned);
  }

  /**
   * A row with a reapable status is probed, and is reaped exactly when the prober itself got the
   * row's lock, which it does exactly when the file was there and the lock free when it looked. Any
   * other row is returned as it is and its lock file left alone.
   */
  method MaybeReap(s: Store, clock: Clock, t: Task, w: LockFile.World, me: nat, calls: Calls, f: Files, io: bool)
    returns (r: Task, ghost at: Look)
    requires Ready(w, me)
    modifies s, clock, w
    ensures old(clock.now) <= clock.now && w.Valid() && old(w.trace) <= w.trace && me !in old(w.s).won
    ensures Reapable(t.status) ==> Looked(w.trace, |old(w.trace)|, me, false, calls, at, me in w.s.won)
    ensures !Reapable(t.status) ==> w.s == old(w.s) && w.trace == old(w.trace)
    ensures !(Reapable(t.status) && me in w.s.won) ==>
      r == t && s.rows == old(s.rows) && s.notices == old(s.notices) && clock.now == old(clock.now)
    ensures Reapable(t.status) && me in w.s.won ==>
      && old(clock.now) < clock.now
      && r == Reaped(t, f, clock.now, clock.now) && !Reapable(r.status)
      && s.rows == Written(old(s.rows), r, io)
  {
    at := Look(0, 0);
    if t.status != Planning && t.status != Working {
      LockFile.WonInRun(w.trace, me);
      return t, at;
    }
    var owned;
    owned, at := ProbeLock(w, me, calls);
    if !owned {
      return t, at;
    }
    if t.status == Planning {
      r := FinalisePlanReap(s, clock, t, f, io);
    } else {
      r := FinaliseWorkReap(s, clock, t, f, io);
    }
    ReapProgress(t, f, clock.now, clock.now);
  }

  method FinalisePlanReap(s: Store, clock: Clock, t: Task, f: Files, io: bool) returns (r: Task)
    requires t.status == Planning
    modifies s, clock
    ensures old(clock.now) < clock.now
    ensures r == Reaped(t, f, clock.now, clock.now)
    ensures s.rows == Written(old(s.rows), r, io)
  {
    var now := clock.Now();
    r := t.(plan := t.plan.(endAt := now));
    var ev := ReaperPlanDone;
    if f.clarification {
      ev := ReaperPlanNeedsClarification;
    } else if !f.requirements || !f.plan {
      ev := ReaperPlanFail;
    } else {
      if f.approval {
        ev := ReaperPlanAwaitApproval;
      }
      if f.summary != "" {
        r := r.(summary := f.summary);
      }
    }
    assert r == ReapEdits(t.WithEndAt(PlanPhase, now), f) && ev == ReapEvent(Planning, f);
    ReapProgress(t, f, now, now);
    var done, _, _ := ApplyAndPersist(s, clock, r, ev, io);
    r := done;
  }

  method FinaliseWorkReap(s: Store, clock: Clock, t: Task, f: Files, io: bool) returns (r: Task)
    requires t.status == Working
    modifies s, clock
    ensures old(clock.now) < clock.now
    ensures r == Reaped(t, f, clock.now, clock.now)
    ensures s.rows == Written(old(s.rows), r, io)
  {
    var now := clock.Now();
    r := t.(work := t.work.(endAt := now));
    var ev := if f.clarification then ReaperWorkNeedsClarification else ReaperWorkDone;
    assert r == ReapEdits(t.WithEndAt(WorkPhase, now), f) && ev == ReapEvent(Working, f);
    ReapProgress(t, f, now, now);
    var done, _, _ := ApplyAndPersist(s, clock, r, ev, io);
    r := done;
  }

  /** One listed row with its lock file, the prober's identity there, and the outside world's answers. */
  datatype Case = Case(row: Task, lock: LockFile.World, me: nat, calls: Calls, files: Files, io: bool)

  /** How one row fared: its lock file's run before and after, where the probe looked, whether it got the lock. */
  datatype Visit = Visit(before: seq<FlockRuns.Step>, after: seq<FlockRuns.Step>, at: Look, owned: bool)

  /** What the reaper may return for one row of a list; `owned` tells whether its prober had the lock. */
  predicate ReapedAs(c: Case, owned: bool, r: Task, start: Time) {
    if Reapable(c.row.status) && owned
    then start < r.EndAt(ReapPhase(c.row.status))
      && r == Reaped(c.row, c.files, r.EndAt(ReapPhase(c.row.status)), r.EndAt(ReapPhase(c.row.status)))
    else r == c.row
  }

  lemma ReapedAt(c: Case, before: Time, now: Time)
    requires Reapable(c.row.status) && before < now
    ensures ReapedAs(c, true, Reaped(c.row, c.files, now, now), before)
  {
  }

  /** A reapable row was probed, any other was not, and the row came out as its probe allows. */
  predicate Handled(c: Case, v: Visit, r: Task, start: Time) {
    && ReapedAs(c, v.owned, r, start) && v.before <= v.after
    && c.me !in FlockRuns.Exec(FlockRuns.BOOT, v.before).won
    && (v.owned <==> c.me in FlockRuns.Exec(FlockRuns.BOOT, v.after).won)
    && (if Reapable(c.row.status) then Looked(v.after, |v.before|, c.me, false, c.calls, v.at, v.owned)
        else v.after == v.before)
  }

  /**
   * A reapable row leaves its active status exactly when its probe found the lock file there and
   * unlocked and neither of its calls failed; otherwise it is returned as it was.
   */
  lemma LeavesIffFree(c: Case, v: Visit, r: Task, start: Time)
    requires Handled(c, v, r, start) && Reapable(c.row.status)
    ensures !Reapable(r.status) <==> Gets(v.after, false, c.calls, v.at)
    ensures !Gets(v.after, false, c.calls, v.at) ==> r == c.row
  {
    if v.owned {
      var endAt := r.EndAt(ReapPhase(c.row.status));
      ReapProgress(c.row, c.files, endAt, endAt);
    }
  }

  /** The store after one row was handled. */
  function RowsNext(rows: map<string, Task>, c: Case, owned: bool, r: Task): map<string, Task> {
    if Reapable(c.row.status) && owned then Written(rows, r, c.io) else rows
  }

  /** The store after the first `n` rows were handled: only reaped rows are written, in order. */
  function RowsAfter(rows: map<string, Task>, cases: seq<Case>, visits: seq<Visit>, out: seq<Task>, n: nat): map<string, Task>
    requires n <= |cases| && n <= |out| && n <= |visits|
  {
    if n == 0 then rows
    else RowsNext(RowsAfter(rows, cases, visits, out, n - 1), cases[n - 1], visits[n - 1].owned, out[n - 1])
  }

  lemma {:induction false} RowsAfterPrefix(rows: map<string, Task>, cases: seq<Case>, visits: seq<Visit>, out: seq<Task>,
                                           v: Visit, r: Task, n: nat)
    requires n <= |cases| && n <= |out| && n <= |visits|
    ensures RowsAfter(rows, cases, visits + [v], out + [r], n) == RowsAfter(rows, cases, visits, out, n)
  {
    if n > 0 {
      RowsAfterPrefix(rows, cases, visits, out, v, r, n - 1);
    }
  }

  lemma RowsAfterNext(rows: map<string, Task>, cases: seq<Case>, visits: seq<Visit>, out: seq<Task>, v: Visit, r: Task)
    requires |out| == |visits| < |cases|
    ensures RowsAfter(rows, cases, visits + [v], out + [r], |out| + 1)
      == RowsNext(RowsAfter(rows, cases, visits, out, |out|), cases[|out|], v.owned, r)
  {
    RowsAfterPrefix(rows, cases, visits, out, v, r, |out|);
  }

  /** Every row has a lock file of its own. */
  ghost predicate OwnLocks(cases: seq<Case>) {
    forall i, j :: 0 <= i < j < |cases| ==> cases[i].lock != cases[j].lock
  }

  /** One row of the listing pass; `start` is any reading before it. */
  method ReapCase(s: Store, clock: Clock, c: Case, ghost start: Time) returns (r: Task, ghost v: Visit)
    requires Ready(c.lock, c.me) && start <= clock.now
    modifies s, clock, c.lock
    ensures old(clock.now) <= clock.now && c.lock.Valid()
    ensures v.before == old(c.lock.trace) && v.after == c.lock.trace && Handled(c, v, r, start)
    ensures s.rows == RowsNext(old(s.rows), c, v.owned, r)
  {
    ghost var at;
    r, at := MaybeReap(s, clock, c.row, c.lock, c.me, c.calls, c.files, c.io);
    v := Visit(old(c.lock.trace), c.lock.trace, at, c.me in c.lock.s.won);
    if Reapable(c.row.status) && v.owned {
      ReapedAt(c, start, clock.now);
    }
  }

  /** `runs` are the runs of the rows' lock files so far. */
  ghost predicate AreRuns(cases: seq<Case>, runs: seq<seq<FlockRuns.Step>>)
    reads set c <- cases :: c.lock
  {
    |runs| == |cases| && forall k :: 0 <= k < |cases| ==> RunOf(cases[k].lock, runs[k])
  }

  ghost predicate RunOf(w: LockFile.World, run: seq<FlockRuns.Step>)
    reads w
  {
    w.Valid() && w.trace == run
  }

  /** In every run the row's prober is yet to look at the lock file. */
  ghost predicate AllReady(cases: seq<Case>, first: seq<seq<FlockRuns.Step>>) {
    && |first| == |cases|
    && forall k :: 0 <= k < |cases| ==>
         LockFile.Fresh(FlockRuns.Exec(FlockRuns.BOOT, first[k]), cases[k].me, FlockRuns.Probing)
  }

  /** What the pass says of its rows so far; `first` and `runs` are the runs of the lock files before it and now. */
  ghost predicate AllHandled(cases: seq<Case>, first: seq<seq<FlockRuns.Step>>, runs: seq<seq<FlockRuns.Step>>,
                             visits: seq<Visit>, out: seq<Task>, start: Time)
  {
    && |visits| == |out| <= |cases| == |first| == |runs|
    && (forall k :: |out| <= k < |cases| ==> runs[k] == first[k])
    && forall k :: 0 <= k < |out| ==>
         visits[k].before == first[k] && visits[k].after == runs[k] && Handled(cases[k], visits[k], out[k], start)
  }

  lemma HandledNext(cases: seq<Case>, first: seq<seq<FlockRuns.Step>>, runs: seq<seq<FlockRuns.Step>>, visits: seq<Visit>,
                    out: seq<Task>, start: Time, v: Visit, r: Task)
    requires AllHandled(cases, first, runs, visits, out, start) && |out| < |cases|
    requires v.before == first[|out|] && Handled(cases[|out|], v, r, start)
    ensures AllHandled(cases, first, runs[|out| := v.after], visits + [v], out + [r], start)
  {
  }

  /** Row `n` of the pass; no other row's lock file is touched. */
  method ReapOne(s: Store, clock: Clock, cases: seq<Case>, n: nat, ghost runs: seq<seq<FlockRuns.Step>>, ghost start: Time)
    returns (r: Task, ghost v: Visit)
    requires n < |cases| && OwnLocks(cases) && AreRuns(cases, runs) && start <= clock.now
    requires LockFile.Fresh(FlockRuns.Exec(FlockRuns.BOOT, runs[n]), cases[n].me, FlockRuns.Probing)
    modifies s, clock, cases[n].lock
    ensures start <= clock.now && v.before == runs[n] && Handled(cases[n], v, r, start)
    ensures AreRuns(cases, runs[n := v.after])
    ensures s.rows == RowsNext(old(s.rows), cases[n], v.owned, r)
  {
    assert RunOf(cases[n].lock, runs[n]);
    r, v := ReapCase(s, clock, cases[n], start);
    forall k | 0 <= k < |cases|
      ensures RunOf(cases[k].lock, runs[n := v.after][k])
    {
      if k != n {
        assert cases[k].lock != cases[n].lock && old(RunOf(cases[k].lock, runs[k]));
      }
    }
  }

  /**
   * The listing pass: same length, same order, each row handled on its own and only under its lock.
   * Every visit is a stretch of its lock file's run, from the run before the pass to the run after.
   */
  method ReapBackgroundTasks(s: Store, clock: Clock, cases: seq<Case>, ghost first: seq<seq<FlockRuns.Step>>)
    returns (out: seq<Task>, ghost visits: seq<Visit>, ghost runs: seq<seq<FlockRuns.Step>>)
    requires OwnLocks(cases) && AreRuns(cases, first) && AllReady(cases, first)
    modifies s, clock, set c <- cases :: c.lock
    ensures |out| == |cases| && AreRuns(cases, runs)
    ensures AllHandled(cases, first, runs, visits, out, old(clock.now))
    ensures s.rows == RowsAfter(old(s.rows), cases, visits, out, |cases|)
  {
    ghost var rows, start := s.rows, clock.now;
    out, visits, runs := [], [], first;
    for i := 0 to |cases|
      invariant |out| == i && start <= clock.now && AreRuns(cases, runs)
      invariant AllHandled(cases, first, runs, visits, out, start)
      invariant s.rows == RowsAfter(rows, cases, visits, out, i)
    {
      assert cases[i] in cases;
      var r;
      ghost var v;
      r, v := ReapOne(s, clock, cases, i, runs, start);
      RowsAfterNext(rows, cases, visits, out, v, r);
      HandledNext(cases, first, runs, visits, out, start, v, r);
      out, visits, runs := out + [r], visits + [v], runs[i := v.after];
    }
  }
}
