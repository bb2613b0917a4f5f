/**
 * What one open-and-lock call did, told from the run of system calls it was part of: where in the
 * run its open and its flock stand, and that the lock was got exactly when those two steps found
 * the file there and the lock free.
 */
module LockTrace {
  import opened FlockRuns

  /** What the calls of one acquire or probe come back with: opening, locking, and the two halves of the record write. */
  datatype Calls = Calls(open: bool, flockFails: bool, opens: bool, writes: bool)

  /** The places of a call's open and flock steps in the run; the second only counts when it got that far. */
  datatype Look = Look(openAt: nat, flockAt: nat)

  /** The state in which step `k` of the run was taken. */
  function At(trace: seq<Step>, k: nat): State
    requires k <= |trace|
  {
    Exec(BOOT, trace[..k])
  }

  /** The file is there to be opened, or is created by the open. */
  predicate Present(trace: seq<Step>, creates: bool, k: nat)
    requires k <= |trace|
  {
    creates || At(trace, k).file != Missing
  }

  predicate OpenStep(step: Step, me: nat, io: bool) {
    if io then step.Open? && step.a == me else step == OpenFails(me)
  }

  /** The call made its open after the first `from` steps, and its flock after that if the file opened. */
  predicate Made(trace: seq<Step>, from: nat, me: nat, creates: bool, io: Calls, at: Look) {
    && from <= at.openAt < |trace| && OpenStep(trace[at.openAt], me, io.open)
    && (io.open && Present(trace, creates, at.openAt) ==>
          at.openAt < at.flockAt < |trace| && trace[at.flockAt] == Flock(me, io.flockFails))
  }

  /** Nothing stood in the way: the open worked and found a file, the flock worked and found the lock free. */
  predicate Gets(trace: seq<Step>, creates: bool, io: Calls, at: Look) {
    && io.open && !io.flockFails
    && at.openAt <= |trace| && Present(trace, creates, at.openAt)
    && at.flockAt <= |trace| && At(trace, at.flockAt).locked.None?
  }

  /** One call of `me` after the first `from` steps, which got the lock iff nothing stood in the way. */
  predicate Looked(trace: seq<Step>, from: nat, me: nat, creates: bool, io: Calls, at: Look, got: bool) {
    Made(trace, from, me, creates, io, at) && (got <==> Gets(trace, creates, io, at))
  }

  lemma Earlier(t: seq<Step>, u: seq<Step>, k: nat)
    requires t <= u && k <= |t|
    ensures At(u, k) == At(t, k)
  {
    assert u[..k] == t[..k];
  }

  /** More steps do not change what a call did. */
  lemma LookedStays(t: seq<Step>, u: seq<Step>, from: nat, me: nat, creates: bool, io: Calls, at: Look, got: bool)
    requires t <= u && Looked(t, from, me, creates, io, at, got)
    ensures Looked(u, from, me, creates, io, at, got)
  {
    Earlier(t, u, at.openAt);
    if io.open && Present(t, creates, at.openAt) {
      Earlier(t, u, at.flockAt);
    }
  }

  /** A call after a later step is one after an earlier step. */
  lemma LookedFrom(t: seq<Step>, later: nat, from: nat, me: nat, creates: bool, io: Calls, at: Look, got: bool)
    requires from <= later && Looked(t, later, me, creates, io, at, got)
    ensures Looked(t, from, me, creates, io, at, got)
  {
  }

  /** A call that never reached its flock. */
  lemma LookedOpen(t: seq<Step>, step: Step, u: seq<Step>, from: nat, me: nat, creates: bool, io: Calls)
    requires from <= |t| && t + [step] <= u && OpenStep(step, me, io.open)
    requires !io.open || !(creates || Exec(BOOT, t).file != Missing)
    ensures Looked(u, from, me, creates, io, Look(|t|, |t|), false)
  {
    assert u[|t|] == step && u[..|t|] == t;
  }

  /** A call that did: `t` and `v` are the run before its open and before its flock. */
  lemma LookedFlock(t: seq<Step>, step: Step, v: seq<Step>, u: seq<Step>, from: nat, me: nat, creates: bool, io: Calls)
    requires from <= |t| && t + [step] <= v && OpenStep(step, me, io.open) && v + [Flock(me, io.flockFails)] <= u
    requires io.open && (creates || Exec(BOOT, t).file != Missing)
    ensures Looked(u, from, me, creates, io, Look(|t|, |v|), !io.flockFails && Exec(BOOT, v).locked.None?)
  {
    assert u[|t|] == step && u[..|t|] == t && u[|v|] == Flock(me, io.flockFails) && u[..|v|] == v;
  }

  /** Where the search for look `k` of a poll starts: after the previous look. */
  function From(from: nat, looks: seq<Look>, k: nat): nat
    requires k <= |looks|
  {
    if k == 0 then from else looks[k - 1].openAt + 1
  }

  /**
   * A poll: one look per entry of `polls`, in this order, each missing the lock but the last when
   * `ok`. It ends at the first look that gets the lock or fails to open, and otherwise goes on to
   * the last entry.
   */
  ghost predicate Polled(trace: seq<Step>, from: nat, me: nat, polls: seq<Calls>, looks: seq<Look>, ok: bool) {
    && Missed(trace, from, me, polls, looks, ok)
    && (ok ==> looks != [])
    && (!ok ==> |looks| == |polls| || (looks != [] && !polls[|looks| - 1].open))
  }

  /** Look `k` of a poll; all but the last opened and missed. */
  predicate OneLook(trace: seq<Step>, from: nat, me: nat, polls: seq<Calls>, looks: seq<Look>, ok: bool, k: nat)
    requires k < |looks| <= |polls|
  {
    var last := k == |looks| - 1;
    (last || polls[k].open) && Looked(trace, From(from, looks, k), me, false, polls[k], looks[k], ok && last)
  }

  /** The looks of a poll so far. */
  ghost predicate Missed(trace: seq<Step>, from: nat, me: nat, polls: seq<Calls>, looks: seq<Look>, ok: bool) {
    |looks| <= |polls| && forall k: nat :: k < |looks| ==> OneLook(trace, from, me, polls, looks, ok, k)
  }

  lemma OneLookStays(t: seq<Step>, u: seq<Step>, from: nat, me: nat, polls: seq<Calls>, looks: seq<Look>, at: Look,
                     ok: bool, k: nat)
    requires t <= u && k < |looks| < |polls| && OneLook(t, from, me, polls, looks, false, k)
    requires polls[|looks| - 1].open
    ensures OneLook(u, from, me, polls, looks + [at], ok, k)
  {
    LookedStays(t, u, From(from, looks, k), me, false, polls[k], looks[k], false);
    assert From(from, looks + [at], k) == From(from, looks, k);
  }

  /** One more look, after the others missed without failing. */
  lemma MissedNext(t: seq<Step>, u: seq<Step>, from: nat, me: nat, polls: seq<Calls>, looks: seq<Look>, at: Look, ok: bool)
    requires t <= u && Missed(t, from, me, polls, looks, false) && |looks| < |polls|
    requires looks != [] ==> polls[|looks| - 1].open
    requires Looked(u, From(from, looks, |looks|), me, false, polls[|looks|], at, ok)
    ensures Missed(u, from, me, polls, looks + [at], ok)
  {
    forall k: nat | k < |looks| + 1
      ensures OneLook(u, from, me, polls, looks + [at], ok, k)
    {
      if k < |looks| {
        OneLookStays(t, u, from, me, polls, looks, at, ok, k);
      } else {
        assert From(from, looks + [at], k) == From(from, looks, k);
      }
    }
  }

  lemma MissedStays(t: seq<Step>, u: seq<Step>, from: nat, me: nat, polls: seq<Calls>, looks: seq<Look>, ok: bool)
    requires t <= u && Missed(t, from, me, polls, looks, ok)
    ensures Missed(u, from, me, polls, looks, ok)
  {
    forall k: nat | k < |looks|
      ensures OneLook(u, from, me, polls, looks, ok, k)
    {
      assert OneLook(t, from, me, polls, looks, ok, k);
      LookedStays(t, u, From(from, looks, k), me, false, polls[k], looks[k], ok && k == |looks| - 1);
    }
  }

  /** A poll after `n` looks that all missed without failing. */
  ghost predicate MidPoll(trace: seq<Step>, from: nat, me: nat, polls: seq<Calls>, looks: seq<Look>, n: nat) {
    && |looks| == n <= |polls| && Missed(trace, from, me, polls, looks, false)
    && (n > 0 ==> polls[n - 1].open) && From(from, looks, n) <= |trace|
  }

  lemma MidPollNext(t: seq<Step>, u: seq<Step>, from: nat, me: nat, polls: seq<Calls>, looks: seq<Look>, n: nat,
                    at: Look, ok: bool)
    requires t <= u && MidPoll(t, from, me, polls, looks, n) && n < |polls|
    requires Looked(u, |t|, me, false, polls[n], at, ok)
    ensures Missed(u, from, me, polls, looks + [at], ok) && From(from, looks + [at], n + 1) <= |u|
  {
    LookedFrom(u, |t|, From(from, looks, n), me, false, polls[n], at, ok);
    MissedNext(t, u, from, me, polls, looks, at, ok);
  }

  /** A poll that gave up although no look failed to open has found every look's file absent, locked, or its flock failing. */
  lemma PolledInVain(trace: seq<Step>, from: nat, me: nat, polls: seq<Calls>, looks: seq<Look>, k: nat)
    requires Polled(trace, from, me, polls, looks, false) && k < |polls| && forall p <- polls :: p.open
    ensures k < |looks| && !Gets(trace, false, polls[k], looks[k])
  {
    if looks != [] {
      assert polls[|looks| - 1] in polls;
    }
    assert OneLook(trace, from, me, polls, looks, false, k);
  }
}
