/** The bounded verifier / worker fix loop and the verify run around it. */
module FixLoop {
  import opened Common
  import opened Fsm
  import opened TaskRow
  import opened Lifecycle

  /** How one verifier turn goes: it may fail to start, fail while waited for, or leave a verdict. */
  datatype VerifyTurn = VerifyNotStarted | VerifyWaitFailed | Verdict(pass: bool)

  /** How the fix that follows a FAIL goes; an unknown worker tool means no turn at all. */
  datatype FixTurn = FixUnresolved | FixNotStarted | FixWaitFailed | Fixed

  /** The agents' behaviour, turn by turn; `watched` is the session id seen during the first turn. */
  datatype Agents = Agents(verify: nat -> VerifyTurn, fix: nat -> FixTurn, watched: string)

  /** A turn handed to an agent, with the session it was told to resume. */
  datatype Turn = V(i: nat, resume: bool, chat: string) | F(i: nat)

  /** Why iteration `i` was the last one, or `Next` when the loop goes on. */
  datatype End = Next | Passed | Exhausted | VerifyFailed | FixAgentUnknown | FixFailed

  function EndOf(a: Agents, n: int, i: nat): End {
    match a.verify(i)
    case VerifyNotStarted | VerifyWaitFailed => VerifyFailed
    case Verdict(pass) =>
      if pass then Passed
      else if i + 1 >= n then Exhausted
      else match a.fix(i)
        case FixUnresolved => FixAgentUnknown
        case FixNotStarted | FixWaitFailed => FixFailed
        case Fixed => Next
  }

  /** The id later turns resume: the one given, else the one the first turn minted. */
  function Chat(session: string, a: Agents): string { if session != "" then session else a.watched }

  function VTurn(session: string, a: Agents, i: nat): Turn {
    if i == 0 then V(0, false, session) else V(i, true, Chat(session, a))
  }

  /** The turns of `k` iterations that each went on to a fix. */
  function Rounds(session: string, a: Agents, k: nat): seq<Turn> {
    if k == 0 then [] else Rounds(session, a, k - 1) + [VTurn(session, a, k - 1), F(k - 1)]
  }

  /** What the loop hands back. */
  datatype LoopResult = LoopResult(outcome: VerifyOutcome, failed: bool, trace: seq<Turn>)

  /** The result when iteration `j` is the last. */
  function ResultAt(session: string, a: Agents, n: int, j: nat): LoopResult {
    var turns := Rounds(session, a, j) + [VTurn(session, a, j)];
    match EndOf(a, n, j)
    case Passed => LoopResult(Success, false, turns)
    case FixFailed => LoopResult(NoRetries, true, turns + [F(j)])
    case VerifyFailed | FixAgentUnknown => LoopResult(NoRetries, true, turns)
    case Exhausted | Next => LoopResult(NoRetries, false, turns)
  }

  /** `r` is what the loop returns: it ran to the first iteration that does not go on. */
  ghost predicate IsResult(session: string, a: Agents, n: int, r: LoopResult) {
    if n <= 0 then r == LoopResult(NoRetries, false, [])
    else exists j: nat :: IsLast(a, n, j) && r == ResultAt(session, a, n, j)
  }

  ghost predicate IsLast(a: Agents, n: int, j: nat) {
    && j < n && EndOf(a, n, j) != Next
    && forall i: nat :: i < j ==> EndOf(a, n, i) == Next
  }

  /** There is one such result, so `IsResult` is a function of the agents. */
  lemma ResultUnique(session: string, a: Agents, n: int, r: LoopResult, q: LoopResult)
    requires IsResult(session, a, n, r) && IsResult(session, a, n, q)
    ensures r == q
  {
    if n > 0 {
      var j: nat :| IsLast(a, n, j) && r == ResultAt(session, a, n, j);
      var k: nat :| IsLast(a, n, k) && q == ResultAt(session, a, n, k);
    }
  }

  function VerifierTurns(t: seq<Turn>): nat {
    if t == [] then 0 else VerifierTurns(t[..|t| - 1]) + if t[|t| - 1].V? then 1 else 0
  }

  lemma {:induction false} RoundsShape(session: string, a: Agents, k: nat)
    ensures |Rounds(session, a, k)| == 2 * k
    ensures forall i: nat :: i < k ==>
      Rounds(session, a, k)[2 * i] == VTurn(session, a, i) && Rounds(session, a, k)[2 * i + 1] == F(i)
  {
    if k > 0 {
      RoundsShape(session, a, k - 1);
    }
  }

  lemma VerifierTurnsAppend(t: seq<Turn>, x: Turn)
    ensures VerifierTurns(t + [x]) == VerifierTurns(t) + if x.V? then 1 else 0
  {
    assert (t + [x])[..|t|] == t;
  }

  lemma {:induction false} RoundsTurns(session: string, a: Agents, k: nat)
    ensures VerifierTurns(Rounds(session, a, k)) == k
  {
    if k > 0 {
      RoundsTurns(session, a, k - 1);
      var r, v, f := Rounds(session, a, k - 1), VTurn(session, a, k - 1), F(k - 1);
      VerifierTurnsAppend(r, v);
      VerifierTurnsAppend(r + [v], f);
      assert r + [v] + [f] == r + [v, f];
    }
  }

  /** The alternation V (F V)^k, each fix turn answering the verifier turn before it. */
  ghost predicate Alternates(session: string, a: Agents, t: seq<Turn>, k: nat) {
    && |t| == 2 * k + 1
    && (forall i: nat :: i <= k ==> t[2 * i] == VTurn(session, a, i))
    && (forall i: nat :: i < k ==> t[2 * i + 1] == F(i))
  }

  lemma ResultAlternates(session: string, a: Agents, n: int, j: nat)
    requires EndOf(a, n, j) != FixFailed
    ensures Alternates(session, a, ResultAt(session, a, n, j).trace, j)
  {
    RoundsShape(session, a, j);
    assert ResultAt(session, a, n, j).trace == Rounds(session, a, j) + [VTurn(session, a, j)];
  }

  /** The run was `k` failed verdicts, each answered by a fix, and then a last verdict. */
  ghost predicate ErrorFree(session: string, a: Agents, n: int, r: LoopResult, k: nat) {
    && Alternates(session, a, r.trace, k)
    && (forall i: nat :: i < k ==> a.verify(i) == Verdict(false))
    && a.verify(k) == Verdict(r.outcome == Success)
    && (r.outcome == NoRetries ==> k + 1 == n)
  }

  /**
   * A run without an error alternates, stops at the first PASS, succeeds exactly when its
   * last verdict is PASS, and otherwise has used up exactly N verifier and N - 1 fix turns.
   */
  lemma ErrorFreeTrace(session: string, a: Agents, n: int, r: LoopResult)
    requires n >= 1 && IsResult(session, a, n, r) && !r.failed
    ensures exists k: nat | k < n :: ErrorFree(session, a, n, r, k)
  {
    var j: nat :| IsLast(a, n, j) && r == ResultAt(session, a, n, j);
    ResultAlternates(session, a, n, j);
    forall i: nat | i < j
      ensures a.verify(i) == Verdict(false)
    {
      assert EndOf(a, n, i) == Next;
    }
    assert ErrorFree(session, a, n, r, j);
  }

  /** `last` is the turn of iteration `j` that erred, the first error of the run. */
  ghost predicate ErrsAt(session: string, a: Agents, last: Turn, j: nat) {
    && (forall i: nat :: i < j ==> a.verify(i) == Verdict(false) && a.fix(i) == Fixed)
    && (last.F? ==> last == F(j) && (a.fix(j) == FixNotStarted || a.fix(j) == FixWaitFailed))
    && (last.V? ==> last == VTurn(session, a, j))
    && (last.V? ==> !a.verify(j).Verdict? || (a.verify(j) == Verdict(false) && a.fix(j) == FixUnresolved))
  }

  /** An error ends the trace at the erring turn: nothing before it erred, nothing follows it. */
  lemma ErrorEndsTrace(session: string, a: Agents, n: int, r: LoopResult)
    requires IsResult(session, a, n, r) && r.failed
    ensures r.outcome == NoRetries && r.trace != []
    ensures var last := r.trace[|r.trace| - 1]; exists j: nat | j < n :: ErrsAt(session, a, last, j)
  {
    var j: nat :| IsLast(a, n, j) && r == ResultAt(session, a, n, j);
    forall i: nat | i < j
      ensures a.verify(i) == Verdict(false) && a.fix(i) == Fixed
    {
      assert EndOf(a, n, i) == Next;
    }
    assert ErrsAt(session, a, r.trace[|r.trace| - 1], j);
  }

  lemma ResultTurns(session: string, a: Agents, n: int, j: nat)
    ensures VerifierTurns(ResultAt(session, a, n, j).trace) == j + 1
  {
    var rounds, v := Rounds(session, a, j), VTurn(session, a, j);
    RoundsTurns(session, a, j);
    VerifierTurnsAppend(rounds, v);
    if EndOf(a, n, j) == FixFailed {
      VerifierTurnsAppend(rounds + [v], F(j));
    }
  }

  /** No run hands out more than N verifier turns. */
  lemma TurnBudget(session: string, a: Agents, n: int, r: LoopResult)
    requires IsResult(session, a, n, r)
    ensures VerifierTurns(r.trace) <= if n <= 0 then 0 else n
  {
    if n > 0 {
      var j: nat :| IsLast(a, n, j) && r == ResultAt(session, a, n, j);
      ResultTurns(session, a, n, j);
    }
  }

  /** A verifier turn's session: the given one whenever there is one; otherwise none at first and then the one it minted. */
  predicate RightSession(session: string, watched: string, t: Turn) {
    t.V? ==>
      && (t.resume <==> t.i > 0)
      && (session != "" ==> t.chat == session)
      && (session == "" && t.i == 0 ==> t.chat == "")
      && (session == "" && t.i > 0 ==> t.chat == watched)
  }

  lemma {:induction false} RoundsSession(session: string, a: Agents, k: nat)
    ensures forall t :: t in Rounds(session, a, k) ==> RightSession(session, a.watched, t)
    ensures forall t :: t in Rounds(session, a, k) && t.V? && t.i > 0 ==> k > 0
  {
    if k > 0 {
      RoundsSession(session, a, k - 1);
    }
  }

  /** Every verifier turn of the trace, after whatever rounds, is handed the right session. */
  lemma ResumesSession(session: string, a: Agents, n: int, r: LoopResult)
    requires IsResult(session, a, n, r)
    ensures forall t :: t in r.trace ==> RightSession(session, a.watched, t)
    ensures forall t :: t in r.trace && t.V? && t.i > 0 ==> a.verify(0) == Verdict(false)
  {
    if n > 0 {
      var j: nat :| IsLast(a, n, j) && r == ResultAt(session, a, n, j);
      RoundsSession(session, a, j);
      if j > 0 {
        assert EndOf(a, n, 0) == Next;
      }
    }
  }

  /** Iteration `k` passes, and every one before it failed and was fixed. */
  ghost predicate PassesAt(a: Agents, n: int, k: nat) {
    k < n && a.verify(k) == Verdict(true) && forall i: nat :: i < k ==> a.verify(i) == Verdict(false) && a.fix(i) == Fixed
  }

  /** The loop succeeds exactly on agents that pass within the limit. */
  lemma SucceedsIffPasses(session: string, a: Agents, n: int, r: LoopResult)
    requires IsResult(session, a, n, r)
    ensures r.outcome == Success <==> exists k: nat :: PassesAt(a, n, k)
    ensures r.outcome == Success ==> !r.failed
  {
    if n > 0 {
      var j: nat :| IsLast(a, n, j) && r == ResultAt(session, a, n, j);
      if r.outcome == Success {
        forall i: nat | i < j ensures a.verify(i) == Verdict(false) && a.fix(i) == Fixed {
          assert EndOf(a, n, i) == Next;
        }
        assert PassesAt(a, n, j);
      }
      if k: nat :| PassesAt(a, n, k) {
        assert forall i: nat :: i < k ==> EndOf(a, n, i) == Next;
        assert EndOf(a, n, k) == Passed && IsLast(a, n, k);
      }
    }
  }

  /** Iteration `k` errs, in its verifier turn or in the fix it calls for, and every one before it failed and was fixed. */
  ghost predicate ErrsFirst(a: Agents, n: int, k: nat) {
    && k < n && (forall i: nat :: i < k ==> a.verify(i) == Verdict(false) && a.fix(i) == Fixed)
    && (!a.verify(k).Verdict? || (a.verify(k) == Verdict(false) && k + 1 < n && a.fix(k) != Fixed))
  }

  /** The loop reports an error exactly on agents that err before they pass or run out of turns. */
  lemma FailsIffErrs(session: string, a: Agents, n: int, r: LoopResult)
    requires IsResult(session, a, n, r)
    ensures r.failed <==> exists k: nat :: ErrsFirst(a, n, k)
  {
    if n > 0 {
      var j: nat :| IsLast(a, n, j) && r == ResultAt(session, a, n, j);
      if r.failed {
        forall i: nat | i < j ensures a.verify(i) == Verdict(false) && a.fix(i) == Fixed {
          assert EndOf(a, n, i) == Next;
        }
        assert ErrsFirst(a, n, j);
      }
      if k: nat :| ErrsFirst(a, n, k) {
        assert forall i: nat :: i < k ==> EndOf(a, n, i) == Next;
        assert IsLast(a, n, k);
      }
    }
  }

  // ----- The loop -----

  /** The first turn mints the session: none was given, the turn started, and an id was seen. */
  predicate Mints(session: string, a: Agents, n: int) {
    n > 0 && session == "" && !a.verify(0).VerifyNotStarted? && a.watched != ""
  }

  /** The row and the store after the minted session, if any, was recorded. */
  predicate MintRecorded(minted: bool, watched: string, io: bool, before: Task, after: Task,
                         rows: map<string, Task>, now: map<string, Task>)
  {
    if minted then after == before.WithSession(VerifyPhase, watched) && now == Written(rows, after, io)
    else after == before && now == rows
  }

  /** Runs to the first iteration that does not go on; the row is stamped exactly when a session was minted. */
  method RunVerifyLoop(lc: VerifyLifecycle, a: Agents, session: string, n: int, io: bool) returns (r: LoopResult)
    modifies lc`task, lc`maxIterations, lc.store
    ensures IsResult(session, a, n, r)
    ensures MintRecorded(Mints(session, a, n), a.watched, io, old(lc.task), lc.task, old(lc.store.rows), lc.store.rows)
    ensures lc.store.notices == old(lc.store.notices)
  {
    var trace, chat, i := [], session, 0;
    while i < n
      invariant 0 <= i && (i <= n || i == 0)
      invariant forall k: nat :: k < i && k + 1 < n ==> EndOf(a, n, k) == Next
      invariant i < n ==> trace == Rounds(session, a, i)
      invariant 0 < i == n ==> EndOf(a, n, n - 1) == Exhausted && trace == Rounds(session, a, n - 1) + [VTurn(session, a, n - 1)]
      invariant i == 0 ==> trace == [] && chat == session && lc.task == old(lc.task) && lc.store.rows == old(lc.store.rows)
      invariant i > 0 ==> chat == Chat(session, a)
      invariant i > 0 ==>
        MintRecorded(Mints(session, a, n), a.watched, io, old(lc.task), lc.task, old(lc.store.rows), lc.store.rows)
      invariant lc.store.notices == old(lc.store.notices)
    {
      var outcome, failed, turns, next := RunIteration(lc, a, chat, n, i, io);
      trace, chat := trace + turns, next;
      if failed || outcome == Success {
        assert IsLast(a, n, i);
        return LoopResult(outcome, failed, trace);
      }
      i := i + 1;
    }
    if n > 0 {
      assert IsLast(a, n, n - 1);
    }
    return LoopResult(NoRetries, false, trace);
  }

  /** One verifier turn, its verdict, and the fix turn a FAIL with retries left calls for. */
  method RunIteration(lc: VerifyLifecycle, a: Agents, chat: string, n: int, i: nat, io: bool)
    returns (outcome: VerifyOutcome, failed: bool, turns: seq<Turn>, next: string)
    requires i < n
    modifies lc`task, lc`maxIterations, lc.store
    ensures outcome == Success <==> EndOf(a, n, i) == Passed
    ensures failed <==> EndOf(a, n, i) in {VerifyFailed, FixAgentUnknown, FixFailed}
    ensures turns == [V(i, i > 0, chat)] + if EndOf(a, n, i) in {Next, FixFailed} then [F(i)] else []
    ensures !failed ==> next == if i == 0 && chat == "" then a.watched else chat
    ensures lc.store.notices == old(lc.store.notices)
    ensures MintRecorded(i == 0 && Mints(chat, a, n), a.watched, io, old(lc.task), lc.task, old(lc.store.rows), lc.store.rows)
  {
    lc.IterationBegin(n);
    outcome, failed, turns, next := NoRetries, true, [V(i, i > 0, chat)], chat;
    var v := a.verify(i);
    if v.VerifyNotStarted? {
      return;
    }
    if i == 0 && chat == "" {
      next := a.watched;
      lc.RecordResumeSession(next, io);
    }
    if v.VerifyWaitFailed? {
      return;
    }
    failed := false;
    if v.pass {
      outcome := Success;
      return;
    }
    if i + 1 >= n {
      return;
    }
    var f := a.fix(i);
    if f.FixUnresolved? {
      failed := true;
      return;
    }
    turns := turns + [F(i)];
    failed := !f.Fixed?;
  }

  const DEFAULT_MAX_ITERATIONS := 3

  lemma BegunVerify(t: Task, b: BeginInput, now: Time)
    ensures var r := Begun(RestartVerify, t, b, now);
      && r.id == t.id && r.Session(VerifyPhase) == b.session.resumeID && OtherPhasesSame(VerifyPhase, t, r)
      && r.status == if BeginLegal(RestartVerify, t) then Verifying else t.status
  {
    BeginFrame(RestartVerify, t, b, now);
    PhasesApart(RestartVerify, b, FinishVerify(false, false, Success), t, now, now);
    AppliedStatus(Prepared(RestartVerify, t, b, now), VerifyBegin, now);
  }

  lemma FinishedVerify(t: Task, f: FinishInput, endAt: Time, now: Time)
    requires f.FinishVerify?
    ensures var r := Finished(t, f, endAt, now);
      && r.id == t.id && r.Session(VerifyPhase) == t.Session(VerifyPhase) && OtherPhasesSame(VerifyPhase, t, r)
      && r.status == if t.status == Verifying then Destination(FinishEvent(f)) else t.status
  {
    FinishedStatus(t, f, endAt, now);
    PhasesApart(RestartVerify, BeginInput(AgentSession("", "", ""), "", ""), f, t, endAt, now);
  }

  /** Only the row of `t` may differ, and then only in fields other than its status and the other phases' sections. */
  ghost predicate RowKept(before: map<string, Task>, after: map<string, Task>, t: Task) {
    || after == before
    || (t.id in after && after[t.id].id == t.id && after[t.id].status == t.status && OtherPhasesSame(VerifyPhase, t, after[t.id])
        && after == before[t.id := after[t.id]])
  }

  /** The three writes of a verify run, folded: only the last one shows when the begin was legal. */
  lemma RunRows(rows: map<string, Task>, t: Task, begun: Task, recorded: Task, final: Task, f: FinishInput, io: bool,
                rows1: map<string, Task>, rows2: map<string, Task>, rows3: map<string, Task>)
    requires t.id != "" && begun.id == recorded.id == final.id == t.id && f.FinishVerify?
    requires begun.status == recorded.status == (if BeginLegal(RestartVerify, t) then Verifying else t.status)
    requires final.status == if recorded.status == Verifying then Destination(FinishEvent(f)) else recorded.status
    requires OtherPhasesSame(VerifyPhase, t, recorded)
    requires rows1 == Kept(rows, t.status, VerifyBegin, begun, io)
    requires rows2 == rows1 || rows2 == Written(rows1, recorded, io)
    requires rows3 == Kept(rows2, recorded.status, FinishEvent(f), final, io)
    ensures if BeginLegal(RestartVerify, t) then rows3 == Written(rows, final, io) else RowKept(rows, rows3, t)
  {
    if BeginLegal(RestartVerify, t) {
      FoldedWrites(rows, begun, recorded, final, io, rows1, rows2);
    } else {
      assert rows1 == rows && rows3 == rows2;
    }
  }

  lemma FoldedWrites(rows: map<string, Task>, begun: Task, recorded: Task, final: Task, io: bool,
                     rows1: map<string, Task>, rows2: map<string, Task>)
    requires begun.id == recorded.id == final.id && Storable(begun) && Storable(recorded) && Storable(final)
    requires rows1 == Written(rows, begun, io) && (rows2 == rows1 || rows2 == Written(rows1, recorded, io))
    ensures Written(rows2, final, io) == Written(rows, final, io)
  {
  }

  lemma MintedSession(minted: bool, watched: string, io: bool, before: Task, after: Task,
                      rows: map<string, Task>, now: map<string, Task>)
    requires MintRecorded(minted, watched, io, before, after, rows, now)
    ensures after.Session(VerifyPhase) == if minted then watched else before.Session(VerifyPhase)
    ensures OtherPhasesSame(VerifyPhase, before, after)
  {
  }

  /** Every verifier turn but the first resumes session `id`. */
  predicate LaterResume(trace: seq<Turn>, id: string) {
    forall t :: t in trace && t.V? && t.i > 0 ==> t.chat == id
  }

  /** The later turns resume the session the row ends up with: the given one, or the one minted. */
  lemma ResumesMinted(session: string, a: Agents, n: int, r: LoopResult)
    requires IsResult(session, a, n, r)
    ensures LaterResume(r.trace, if Mints(session, a, n) then a.watched else session)
  {
    ResumesSession(session, a, n, r);
    if n <= 0 {
      assert r.trace == [];
    }
  }

  method OpenVerify(store: Store, clock: Clock, t: Task, b: BeginInput, io: bool) returns (lc: VerifyLifecycle)
    modifies store, clock
    ensures fresh(lc) && lc.store == store && lc.clock == clock && !lc.closed && lc.task.id == t.id
    ensures lc.task.Session(VerifyPhase) == b.session.resumeID && OtherPhasesSame(VerifyPhase, t, lc.task)
    ensures old(clock.now) < clock.now && lc.task == Begun(RestartVerify, t, b, clock.now)
    ensures lc.task.status == if BeginLegal(RestartVerify, t) then Verifying else t.status
    ensures store.rows == Kept(old(store.rows), t.status, VerifyBegin, lc.task, io)
  {
    lc := new VerifyLifecycle.BeginVerifyRestart(store, clock, t, b, io);
    BegunVerify(t, b, clock.now);
  }

  method CloseVerify(lc: VerifyLifecycle, r: LoopResult, clarification: bool, io: bool)
    requires !lc.closed
    modifies lc`task, lc`closed, lc.store, lc.clock
    ensures lc.task.id == old(lc.task).id && lc.task.Session(VerifyPhase) == old(lc.task).Session(VerifyPhase)
    ensures OtherPhasesSame(VerifyPhase, old(lc.task), lc.task)
    ensures old(lc.clock.now) < lc.task.verify.endAt <= lc.clock.now
    ensures lc.task == Finished(old(lc.task), FinishVerify(r.failed, clarification, r.outcome), lc.task.verify.endAt, lc.clock.now)
    ensures var e := FinishEvent(FinishVerify(r.failed, clarification, r.outcome));
      && lc.task.status == (if old(lc.task).status == Verifying then Destination(e) else old(lc.task).status)
      && lc.store.rows == Kept(old(lc.store.rows), old(lc.task).status, e, lc.task, io)
  {
    ghost var before := lc.task;
    lc.Finish(r.outcome, r.failed, clarification, io);
    FinishedVerify(before, FinishVerify(r.failed, clarification, r.outcome), lc.task.verify.endAt, lc.clock.now);
  }

  /** The loop on an open object and its one finish; `recorded` and `middle` are the row and the store in between. */
  method LoopAndClose(lc: VerifyLifecycle, a: Agents, session: string, n: int, clarification: bool, io: bool)
    returns (r: LoopResult, ghost recorded: Task, ghost middle: map<string, Task>)
    requires !lc.closed
    modifies lc, lc.store, lc.clock
    ensures IsResult(session, a, n, r)
    ensures lc.task.id == recorded.id == old(lc.task).id && recorded.status == old(lc.task).status
    ensures MintRecorded(Mints(session, a, n), a.watched, io, old(lc.task), recorded, old(lc.store.rows), middle)
    ensures lc.task.Session(VerifyPhase) == recorded.Session(VerifyPhase)
    ensures OtherPhasesSame(VerifyPhase, old(lc.task), recorded) && OtherPhasesSame(VerifyPhase, old(lc.task), lc.task)
    ensures old(lc.clock.now) < lc.task.verify.endAt <= lc.clock.now
    ensures lc.task == Finished(recorded, FinishVerify(r.failed, clarification, r.outcome), lc.task.verify.endAt, lc.clock.now)
    ensures old(lc.task).Session(VerifyPhase) == session ==>
      && recorded.Session(VerifyPhase) == (if Mints(session, a, n) then a.watched else session)
      && LaterResume(r.trace, recorded.Session(VerifyPhase))
    ensures VerifierTurns(r.trace) <= if n <= 0 then 0 else n
    ensures var e := FinishEvent(FinishVerify(r.failed, clarification, r.outcome));
      && lc.task.status == (if recorded.status == Verifying then Destination(e) else recorded.status)
      && lc.store.rows == Kept(middle, recorded.status, e, lc.task, io)
  {
    r := RunVerifyLoop(lc, a, session, n, io);
    recorded, middle := lc.task, lc.store.rows;
    ResumesMinted(session, a, n, r);
    MintedSession(Mints(session, a, n), a.watched, io, old(lc.task), recorded, old(lc.store.rows), middle);
    TurnBudget(session, a, n, r);
    CloseVerify(lc, r, clarification, io);
  }

  /** `row` is begun at `at`, stamped with the minted session if any, and finished at `end`. */
  predicate VerifyRow(t: Task, b: BeginInput, minted: bool, watched: string, f: FinishInput, at: Time, end: Time, now: Time, row: Task) {
    var begun := Begun(RestartVerify, t, b, at);
    at < end <= now && row == Finished(if minted then begun.WithSession(VerifyPhase, watched) else begun, f, end, now)
  }

  /** What a verify run leaves: the finish of its result, or the old status when the begin had no edge. */
  ghost predicate VerifyRunLeft(t: Task, final: Task, r: LoopResult, clarification: bool, io: bool,
                                before: map<string, Task>, after: map<string, Task>)
  {
    && final.id == t.id && OtherPhasesSame(VerifyPhase, t, final) && LaterResume(r.trace, final.Session(VerifyPhase))
    && (BeginLegal(RestartVerify, t) ==>
          && final.status == Destination(FinishEvent(FinishVerify(r.failed, clarification, r.outcome)))
          && after == Written(before, final, io))
    && (!BeginLegal(RestartVerify, t) ==> final.status == t.status && RowKept(before, after, t))
  }

  lemma RunLeaves(rows: map<string, Task>, t: Task, begun: Task, recorded: Task, final: Task, r: LoopResult, clarification: bool,
                  io: bool, rows1: map<string, Task>, rows2: map<string, Task>, rows3: map<string, Task>)
    requires t.id != "" && begun.id == recorded.id == final.id == t.id
    requires begun.status == recorded.status == (if BeginLegal(RestartVerify, t) then Verifying else t.status)
    requires var e := FinishEvent(FinishVerify(r.failed, clarification, r.outcome));
      && final.status == (if recorded.status == Verifying then Destination(e) else recorded.status)
      && rows3 == Kept(rows2, recorded.status, e, final, io)
    requires OtherPhasesSame(VerifyPhase, t, recorded) && OtherPhasesSame(VerifyPhase, t, final)
    requires rows1 == Kept(rows, t.status, VerifyBegin, begun, io)
    requires rows2 == rows1 || rows2 == Written(rows1, recorded, io)
    requires LaterResume(r.trace, final.Session(VerifyPhase))
    ensures VerifyRunLeft(t, final, r, clarification, io, rows, rows3)
  {
    RunRows(rows, t, begun, recorded, final, FinishVerify(r.failed, clarification, r.outcome), io, rows1, rows2, rows3);
  }

  /** Begin, loop for at most `n` iterations, finish once. */
  method RunVerifyFor(store: Store, clock: Clock, t: Task, b: BeginInput, a: Agents, n: int, clarification: bool, io: bool)
    returns (r: LoopResult, final: Task)
    requires t.id != ""
    modifies store, clock
    ensures IsResult(b.session.resumeID, a, n, r) && VerifierTurns(r.trace) <= if n <= 0 then 0 else n
    ensures final.Session(VerifyPhase) == if Mints(b.session.resumeID, a, n) then a.watched else b.session.resumeID
    ensures VerifyRunLeft(t, final, r, clarification, io, old(store.rows), store.rows)
    ensures exists at, end | old(clock.now) < at ::
      VerifyRow(t, b, Mints(b.session.resumeID, a, n), a.watched, FinishVerify(r.failed, clarification, r.outcome), at, end, clock.now, final)
  {
    var lc := OpenVerify(store, clock, t, b, io);
    ghost var begun, rows1, at := lc.task, store.rows, clock.now;
    ghost var recorded, rows2;
    r, recorded, rows2 := LoopAndClose(lc, a, b.session.resumeID, n, clarification, io);
    final := lc.task;
    assert VerifyRow(t, b, Mints(b.session.resumeID, a, n), a.watched, FinishVerify(r.failed, clarification, r.outcome),
                     at, final.verify.endAt, clock.now, final);
    RunLeaves(old(store.rows), t, begun, recorded, final, r, clarification, io, rows1, rows2, store.rows);
  }

  /** A verify run: begin, loop, finish once with whatever the loop said. */
  method RunVerify(store: Store, clock: Clock, t: Task, b: BeginInput, a: Agents, maxIterations: int,
                   clarification: bool, io: bool)
    returns (r: LoopResult, final: Task)
    requires t.id != ""
    modifies store, clock
    ensures IsResult(b.session.resumeID, a, if maxIterations <= 0 then 3 else maxIterations, r)
    ensures VerifierTurns(r.trace) <= if maxIterations <= 0 then 3 else maxIterations
    ensures final.Session(VerifyPhase) == if Mints(b.session.resumeID, a, 1) then a.watched else b.session.resumeID
    ensures VerifyRunLeft(t, final, r, clarification, io, old(store.rows), store.rows)
    ensures exists at, end | old(clock.now) < at ::
      VerifyRow(t, b, Mints(b.session.resumeID, a, 1), a.watched, FinishVerify(r.failed, clarification, r.outcome), at, end, clock.now, final)
  {
    var n := if maxIterations <= 0 then DEFAULT_MAX_ITERATIONS else maxIterations;
    r, final := RunVerifyFor(store, clock, t, b, a, n, clarification, io);
  }
}
