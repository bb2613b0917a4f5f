/**
 * The lock object and its callers, system call by system call. Between any two of its own calls
 * every other process may take any number of steps.
 */
module LockFile {
  import opened Common
  import opened FlockRuns
  import opened LockTrace

  /** The steps that are not `me`'s doing and do not kill it. */
  predicate ByOthers(s: State, step: Step, me: nat)
    requires me in s.actors
  {
    !CallOf(step, me) && (step.Crash? ==> step.pid != s.actors[me].pid)
  }

  /** What the others cannot take from `me`: its place, its descriptor, the lock and file it holds, its wins. */
  predicate StillMine(s: State, t: State, me: nat) {
    && me in s.actors && me in t.actors && t.actors[me] == s.actors[me]
    && (HasFd(s.actors[me].at) && Key(s.actors[me]) in s.fds ==>
          Key(s.actors[me]) in t.fds && t.fds[Key(s.actors[me])] == s.fds[Key(s.actors[me])])
    && (Owns(s.actors[me].at) ==> t.locked == s.locked && t.file == s.file)
    && s.won.Keys <= t.won.Keys && (me in t.won <==> me in s.won)
  }

  /** A record write of somebody else means `me` does not own the lock. */
  lemma WriteStep(s: State, step: Step, me: nat)
    requires Good(s) && me in s.actors && Enabled(s, step)
    requires step.Truncate? || step.SkipRecord? || step.WriteRecord? || step.Retag? || step.Release?
    requires step.a != me
    ensures StillMine(s, Do(s, step), me)
  {
    SoleOwner(s, step.a);
  }

  /** Opening, locking, unlocking or closing somebody else's descriptor leaves mine alone. */
  lemma DescriptorStep(s: State, step: Step, me: nat)
    requires Good(s) && me in s.actors && Enabled(s, step)
    requires step.Open? || step.Flock? || step.Unlock? || step.Close?
    requires step.a != me
    ensures StillMine(s, Do(s, step), me)
  {
    var b := step.a;
    KeysHeld(s);
    assert ActorGood(s, me);
    if step.Unlock? {
      SoleOwner(s, b);
    }
    if step.Close? {
      NotMine(s, b);
    }
  }

  /** The death of another process takes nothing of mine. */
  lemma CrashStep(s: State, pid: Pid, me: nat)
    requires Good(s) && me in s.actors && pid != s.actors[me].pid
    ensures StillMine(s, WithCrashed(s, pid), me)
  {
    assert ActorGood(s, me);
  }

  lemma OthersStep(s: State, step: Step, me: nat)
    requires Good(s) && me in s.actors && ByOthers(s, step, me)
    ensures StillMine(s, Do(s, step), me)
  {
    if step.Crash? {
      CrashStep(s, step.pid, me);
    } else if Enabled(s, step) && !step.Spawn? {
      match step {
        case Open(_, _) => DescriptorStep(s, step, me);
        case OpenFails(_) =>
        case Flock(_, _) => DescriptorStep(s, step, me);
        case Unlock(_) => DescriptorStep(s, step, me);
        case Close(_) => DescriptorStep(s, step, me);
        case Poll(_) =>
        case Return(_) =>
        case GiveUp(_) =>
        case _ => WriteStep(s, step, me);
      }
    }
  }

  lemma StillMineThrough(s: State, t: State, u: State, me: nat)
    requires StillMine(s, t, me) && StillMine(t, u, me)
    ensures StillMine(s, u, me)
  {
  }

  /** At the end of a run a live actor is on record as a winner exactly when it is past its flock. */
  lemma WonInRun(trace: seq<Step>, me: nat)
    requires me in Exec(BOOT, trace).actors && Exec(BOOT, trace).actors[me].at != Dead
    ensures me in Exec(BOOT, trace).won <==> PastLock(Exec(BOOT, trace).actors[me].at)
  {
    ReachedGood(trace);
    WonExactly(Exec(BOOT, trace), me);
  }

  /** The kernel and everybody using it; `trace` is every system call so far. */
  class World {
    var s: State
    ghost var trace: seq<Step>

    constructor ()
      ensures Valid() && trace == []
    {
      s, trace := BOOT, [];
    }

    /** The state is the one the run leads to, and so satisfies the protocol's invariant. */
    ghost predicate Valid()
      reads this
    {
      s == Exec(BOOT, trace)
    }

    /** One system call of the caller. */
    method Call(step: Step)
      requires Valid()
      modifies this
      ensures Valid() && s == Do(old(s), step) && trace == old(trace) + [step]
    {
      ExecSnoc(BOOT, trace, step);
      s := Do(s, step);
      trace := trace + [step];
    }

    /** Any number of steps of anybody else. */
    method Others(me: nat)
      requires Valid() && me in s.actors
      modifies this
      ensures Valid() && StillMine(old(s), s, me) && old(trace) <= trace
    {
      var turns :| 0 <= turns;
      while turns > 0
        invariant Valid() && StillMine(old(s), s, me) && old(trace) <= trace
      {
        var step: Step :| true;
        if ByOthers(s, step, me) {
          ReachedGood(trace);
          OthersStep(s, step, me);
          StillMineThrough(old(s), s, Do(s, step), me);
          Call(step);
        }
        turns := turns - 1;
      }
    }

    /** Opens the lock file, which may fail; a probe of an absent file opens nothing. */
    method OpenFile(me: nat, io: bool) returns (fd: Fd)
      requires Valid() && me in s.actors && (s.actors[me].at == Start || s.actors[me].at == Polling)
      modifies this
      ensures Valid() && me in s.actors && old(s).won == s.won
      ensures trace == old(trace) + [if io then Open(me, fd) else OpenFails(me)]
      ensures s.actors[me] == old(s).actors[me].(at :=
        if !io then GaveUp
        else if Probes(old(s).actors[me]) && old(s).file == Missing then Nothing
        else Opened(fd, Probes(old(s).actors[me])))
    {
      fd := FreeFd(s.fds.Keys, s.actors[me].pid);
      Call(if io then Open(me, fd) else OpenFails(me));
    }

    /** The non-blocking flock: won exactly when the call worked and nobody had the lock. */
    method FlockNb(me: nat, fails: bool)
      requires Valid() && me in s.actors && s.actors[me].at.Opened?
      modifies this
      ensures Valid() && me in s.actors && old(s).won.Keys <= s.won.Keys
      ensures trace == old(trace) + [Flock(me, fails)]
      ensures var p := old(s).actors[me].at;
        s.actors[me] == old(s).actors[me].(at :=
          if fails || old(s).locked.Some? then Refused(p.fd, p.probe)
          else if p.probe then ProbeHeld(p.fd) else Won(p.fd))
    {
      ReachedGood(trace);
      assert ActorGood(s, me);
      NotMine(s, me);
      Call(Flock(me, fails));
    }

    /** Truncates and rewrites the record, with everybody else running in between. */
    method WriteHolder(me: nat, h: Holder, opens: bool, writes: bool)
      requires Valid() && me in s.actors && s.actors[me].at.Won? && h.pid == s.actors[me].pid
      modifies this
      ensures Valid() && me in s.actors && old(s).won.Keys <= s.won.Keys && old(trace) <= trace
      ensures s.actors[me] == old(s).actors[me].(at := Held(old(s).actors[me].at.fd, h, opens && writes))
      ensures opens && writes ==> s.file == Record(h)
    {
      if opens {
        Call(Truncate(me, h));
        Others(me);
        Call(WriteRecord(me, writes));
      } else {
        Call(SkipRecord(me, h));
      }
    }

    /** The same rewrite with a new phase, by a holder. */
    method RetagHolder(me: nat, phase: string, opens: bool, writes: bool)
      requires Valid() && me in s.actors && s.actors[me].at.Held?
      modifies this
      ensures Valid() && me in s.actors && old(s).won.Keys <= s.won.Keys && s.locked == old(s).locked && old(trace) <= trace
      ensures var p := old(s).actors[me].at;
        s.actors[me] == old(s).actors[me].(at := Held(p.fd, p.h.(phase := phase), p.wrote || (opens && writes)))
      ensures opens && writes ==> s.file == Record(old(s).actors[me].at.h.(phase := phase))
    {
      Call(Retag(me, phase, opens));
      if opens {
        Others(me);
        Call(WriteRecord(me, writes));
      }
    }

    /** Closes a refused descriptor and reads who holds the lock. */
    method CloseRefused(me: nat) returns (seen: Holder)
      requires Valid() && me in s.actors && s.actors[me].at.Refused?
      modifies this
      ensures Valid() && me in s.actors && s.won == old(s).won && old(trace) <= trace
      ensures seen == ReadHolder(old(s).file)
      ensures s.actors[me] == old(s).actors[me].(at := if old(s).actors[me].at.probe then Nothing else Contended(seen))
    {
      ReachedGood(trace);
      assert ActorGood(s, me);
      seen := ReadHolder(s.file);
      Call(Close(me));
    }

    method StartPoll(me: nat)
      requires Valid() && me in s.actors && s.actors[me].mode == Takeover && (s.actors[me].at.Contended? || s.actors[me].at == Nothing)
      modifies this
      ensures Valid() && me in s.actors && s.won == old(s).won && old(trace) <= trace
      ensures s.actors[me] == old(s).actors[me].(at := Polling)
    {
      Call(Poll(me));
    }

    /** A takeover returns: with success from a released lock, without from a contended one. */
    method Finish(me: nat, ok: bool)
      requires Valid() && me in s.actors && s.actors[me].mode == Takeover
      requires if ok then s.actors[me].at == Free else s.actors[me].at.Contended? || s.actors[me].at == Nothing
      modifies this
      ensures Valid() && me in s.actors && old(s).won.Keys <= s.won.Keys && old(trace) <= trace
      ensures s.actors[me] == old(s).actors[me].(at := if ok then TookOver else GaveUp)
      ensures ok ==> me in s.won
    {
      ReachedGood(trace);
      assert ActorGood(s, me);
      Call(if ok then Return(me) else GiveUp(me));
    }

    /** LOCK_UN on the descriptor the lock object just let go of. */
    method UnlockFd(me: nat)
      requires Valid() && me in s.actors && s.actors[me].at.Dropping?
      modifies this
      ensures Valid() && me in s.actors && old(s).won.Keys <= s.won.Keys && old(trace) <= trace
      ensures s.actors[me] == old(s).actors[me].(at := Unlocked(old(s).actors[me].at.fd))
      ensures s.locked == None
    {
      ReachedGood(trace);
      assert ActorGood(s, me);
      Call(Unlock(me));
    }

    method CloseFd(me: nat)
      requires Valid() && me in s.actors && s.actors[me].at.Unlocked?
      modifies this
      ensures Valid() && me in s.actors && old(s).won.Keys <= s.won.Keys && old(trace) <= trace
      ensures s.actors[me] == old(s).actors[me].(at := Free)
      ensures s.locked == old(s).locked
    {
      ReachedGood(trace);
      assert ActorGood(s, me);
      NotMine(s, me);
      Call(Close(me));
    }

    /** Unlock and close, after the lock object's field was cleared. */
    method Drop(me: nat)
      requires Valid() && me in s.actors && (s.actors[me].at.Held? || s.actors[me].at.ProbeHeld?)
      modifies this
      ensures Valid() && me in s.actors && old(s).won.Keys <= s.won.Keys && old(trace) <= trace
      ensures s.actors[me] == old(s).actors[me].(at := Free)
    {
      Call(FlockRuns.Release(me));
      Others(me);
      UnlockFd(me);
      Others(me);
      CloseFd(me);
    }
  }

  /** The table is finite, so some number is always free. */
  lemma {:induction false} SomeFdFree(used: set<(Pid, Fd)>, pid: Pid, n: nat)
    requires forall k: nat :: k < n ==> (pid, k) in used
    ensures n <= |used|
    decreases n
  {
    if n > 0 {
      var less := used - {(pid, n - 1)};
      SomeFdFree(less, pid, n - 1);
      assert used == less + {(pid, n - 1)};
    }
  }

  method FreeFd(used: set<(Pid, Fd)>, pid: Pid) returns (fd: Fd)
    ensures (pid, fd) !in used
  {
    fd := 0;
    while (pid, fd) in used
      invariant forall k: nat :: k < fd ==> (pid, k) in used
      decreases |used| - fd
    {
      SomeFdFree(used, pid, fd + 1);
      fd := fd + 1;
    }
  }

  /** Everything an acquire stamps into its record. */
  datatype Identity = Identity(host: string, phase: string, startedAt: nat)

  class Lock {
    const w: World
    const me: nat
    var fd: Option<Fd>
    var holder: Holder

    constructor (w: World, me: nat, fd: Fd, holder: Holder)
      ensures this.w == w && this.me == me && this.fd == Some(fd) && this.holder == holder
    {
      this.w, this.me, this.fd, this.holder := w, me, Some(fd), holder;
    }

    /** A set descriptor field means the kernel lock is held through it; a nil one means nothing is. */
    ghost predicate Valid()
      reads this, w
    {
      && w.Valid() && me in w.s.actors
      && match fd
         case Some(f) =>
           var p := w.s.actors[me].at;
           (p.Held? && p.fd == f && p.h == holder) || p == ProbeHeld(f)
         case None => w.s.actors[me].at == Free
    }

    /** Rewrites the record's phase while the lock stays held; nothing at all after a release. */
    method UpdatePhase(phase: string, opens: bool, writes: bool) returns (ok: bool)
      requires Valid() && (fd.Some? ==> w.s.actors[me].at.Held?)
      modifies this`holder, w
      ensures Valid() && old(w.trace) <= w.trace
      ensures old(fd).None? ==> w.s == old(w.s) && w.trace == old(w.trace) && holder == old(holder)
      ensures old(fd).Some? ==>
        && holder == old(holder).(phase := phase) && w.s.actors[me].at.Held?
        && w.s.locked == old(w.s).locked
        && ok == (opens && writes)
        && (ok ==> w.s.file == Record(holder))
    {
      if fd.None? {
        return true;
      }
      holder := holder.(phase := phase);
      w.RetagHolder(me, phase, opens, writes);
      return opens && writes;
    }

    /** Clears the field first, then unlocks and closes; a second call touches nothing. */
    method Release()
      requires Valid()
      modifies this`fd, w
      ensures Valid() && fd.None? && old(w.trace) <= w.trace
      ensures old(fd).None? ==> w.s == old(w.s) && w.trace == old(w.trace)
      ensures old(w.s).won.Keys <= w.s.won.Keys && w.s.actors[me].mode == old(w.s).actors[me].mode
    {
      if fd.None? {
        return;
      }
      fd := None;
      w.Drop(me);
    }
  }

  /** A fresh actor with no descriptor, about to open the file. */
  predicate Fresh(s: State, me: nat, mode: Mode) {
    me in s.actors && s.actors[me] == Actor(s.actors[me].pid, mode, Start)
  }

  /**
   * Open, lock, record. It gets the lock exactly when the file opened, the flock call worked and
   * the lock was free at that step. On contention the descriptor is closed again and the holder
   * snapshot returned; a file that cannot be opened is an error of its own.
   */
  method AcquireLockAt(w: World, me: nat, ghost mode: Mode, id: Identity, io: Calls)
    returns (l: Lock?, seen: Option<Holder>, ghost at: Look)
    requires w.Valid() && Fresh(w.s, me, mode) && mode != Probing
    modifies w
    ensures w.Valid() && me in w.s.actors && w.s.actors[me].mode == mode && old(w.trace) <= w.trace
    ensures Looked(w.trace, |old(w.trace)|, me, true, io, at, l != null)
    ensures l != null ==>
      && fresh(l) && l.w == w && l.me == me && l.Valid() && l.fd.Some?
      && w.s.actors[me].at == Held(l.fd.value, Holder(w.s.actors[me].pid, id.host, id.phase, id.startedAt), io.opens && io.writes)
    ensures me !in old(w.s).won && (l != null <==> me in w.s.won)
    ensures l == null ==> w.s.actors[me].at == match seen case Some(h) => Contended(h) case None => GaveUp
    ensures l == null ==> (seen == None <==> !io.open)
  {
    l, seen := null, None;
    var fd;
    ghost var t, step, v;
    fd, t, step, v := OpenAndLock(w, me, io);
    if !io.open {
      LookedOpen(t, step, w.trace, |old(w.trace)|, me, true, io);
      at := Look(|t|, |t|);
      return;
    }
    at := Look(|t|, |v|);
    if w.s.actors[me].at.Refused? {
      var h := w.CloseRefused(me);
      LookedFlock(t, step, v, w.trace, |old(w.trace)|, me, true, io);
      return null, Some(h), at;
    }
    var holder := Holder(w.s.actors[me].pid, id.host, id.phase, id.startedAt);
    w.WriteHolder(me, holder, io.opens, io.writes);
    LookedFlock(t, step, v, w.trace, |old(w.trace)|, me, true, io);
    l := new Lock(w, me, fd, holder);
  }

  /**
   * The open and the flock, with everybody else before, between and after. `t` and `v` are the runs
   * before the two calls, `step` is the open.
   */
  method OpenAndLock(w: World, me: nat, io: Calls) returns (fd: Fd, ghost t: seq<Step>, ghost step: Step, ghost v: seq<Step>)
    requires w.Valid() && me in w.s.actors && (w.s.actors[me].at == Start || w.s.actors[me].at == Polling)
    modifies w
    ensures w.Valid() && me in w.s.actors && old(w.s).won.Keys <= w.s.won.Keys
    ensures me !in old(w.s).won && (me in w.s.won <==> Owns(w.s.actors[me].at))
    ensures old(w.trace) <= t && t + [step] <= w.trace && OpenStep(step, me, io.open)
    ensures var x := old(w.s).actors[me];
      var found := !Probes(x) || Exec(BOOT, t).file != Missing;
      && (io.open && found ==> t + [step] <= v && v + [Flock(me, io.flockFails)] <= w.trace)
      && w.s.actors[me] == x.(at :=
           if !io.open then GaveUp
           else if !found then Nothing
           else if io.flockFails || Exec(BOOT, v).locked.Some? then Refused(fd, Probes(x))
           else if Probes(x) then ProbeHeld(fd) else Won(fd))
  {
    WonInRun(w.trace, me);
    w.Others(me);
    t := w.trace;
    fd := w.OpenFile(me, io.open);
    step, v := if io.open then Open(me, fd) else OpenFails(me), w.trace;
    if !w.s.actors[me].at.Opened? {
      WonInRun(w.trace, me);
      return;
    }
    w.Others(me);
    v := w.trace;
    w.FlockNb(me, io.flockFails);
    w.Others(me);
    WonInRun(w.trace, me);
  }

  /**
   * The reaper's probe. It gets a lock object exactly when the file opened and was there and the
   * flock call worked and found the lock free; `at` says at which steps it looked.
   */
  method TryAcquireForReapAt(w: World, me: nat, io: Calls) returns (l: Lock?, failed: bool, ghost at: Look)
    requires w.Valid() && me in w.s.actors
    requires Fresh(w.s, me, Probing) || (w.s.actors[me].at == Polling && w.s.actors[me].mode == Takeover)
    modifies w
    ensures w.Valid() && me in w.s.actors && w.s.actors[me].mode == old(w.s).actors[me].mode
    ensures old(w.trace) <= w.trace && old(w.s).won.Keys <= w.s.won.Keys
    ensures Looked(w.trace, |old(w.trace)|, me, false, io, at, l != null)
    ensures l != null ==>
      && fresh(l) && l.w == w && l.me == me && l.Valid() && l.fd.Some? && w.s.actors[me].at == ProbeHeld(l.fd.value)
    ensures me !in old(w.s).won && (l != null <==> me in w.s.won)
    ensures l == null ==> w.s.actors[me].at == if failed then GaveUp else Nothing
    ensures failed <==> !io.open
  {
    l, failed := null, !io.open;
    var fd;
    ghost var t, step, v;
    fd, t, step, v := OpenAndLock(w, me, io);
    at := Look(|t|, |v|);
    if w.s.actors[me].at == GaveUp || w.s.actors[me].at == Nothing {
      LookedOpen(t, step, w.trace, |old(w.trace)|, me, false, io);
      at := Look(|t|, |t|);
      return;
    }
    if w.s.actors[me].at.Refused? {
      var _ := w.CloseRefused(me);
      LookedFlock(t, step, v, w.trace, |old(w.trace)|, me, false, io);
      return;
    }
    LookedFlock(t, step, v, w.trace, |old(w.trace)|, me, false, io);
    l := new Lock(w, me, fd, ReadHolder(w.s.file));
  }

  /**
   * The first half of a takeover: the lock is taken and released again if it is free at the step
   * that tries, and otherwise reported as held.
   */
  method TakeIfFree(w: World, me: nat, id: Identity, io: Calls) returns (ok: bool, contended: bool, ghost at: Look)
    requires w.Valid() && Fresh(w.s, me, Takeover)
    modifies w
    ensures w.Valid() && me in w.s.actors && w.s.actors[me].mode == Takeover && old(w.trace) <= w.trace
    ensures Looked(w.trace, |old(w.trace)|, me, true, io, at, ok)
    ensures contended <==> !ok && io.open
    ensures if ok then w.s.actors[me].at == TookOver
      else if contended then w.s.actors[me].at.Contended? else w.s.actors[me].at == GaveUp
    ensures me !in old(w.s).won && (ok <==> me in w.s.won)
  {
    var probe, seen;
    probe, seen, at := AcquireLockAt(w, me, Takeover, id, io);
    if probe == null {
      return false, seen.Some?, at;
    }
    ghost var t := w.trace;
    probe.Release();
    w.Finish(me, true);
    LookedStays(t, w.trace, |old(w.trace)|, me, true, io, at, true);
    return true, false, at;
  }

  /** How a takeover that found the lock free or not went on; the polls follow only a holder that was terminated. */
  ghost predicate TakeoverLooked(trace: seq<Step>, from: nat, me: nat, io: Calls, terminated: bool, polls: seq<Calls>,
                                 first: Look, looks: seq<Look>, ok: bool)
  {
    var free := Gets(trace, true, io, first);
    && Looked(trace, from, me, true, io, first, free)
    && (if !free && io.open && terminated then Polled(trace, first.openAt + 1, me, polls, looks, ok)
        else looks == [] && ok == free)
  }

  /**
   * Takes the lock from whoever holds it, polling once per entry of `polls` after the holder was
   * signalled. Success means exactly that this actor has itself held the lock; it holds it no
   * longer. It comes with the first look, or with the first poll, that finds the lock free.
   */
  method TakeoverIfHeld(w: World, me: nat, id: Identity, io: Calls, terminated: bool, polls: seq<Calls>)
    returns (ok: bool, ghost first: Look, ghost looks: seq<Look>)
    requires w.Valid() && Fresh(w.s, me, Takeover)
    modifies w
    ensures w.Valid() && me in w.s.actors && old(w.trace) <= w.trace
    ensures TakeoverLooked(w.trace, |old(w.trace)|, me, io, terminated, polls, first, looks, ok)
    ensures ok <==> w.s.actors[me].at == TookOver
    ensures me !in old(w.s).won && (ok <==> me in w.s.won)
    ensures !HasFd(w.s.actors[me].at)
  {
    looks := [];
    var contended;
    ok, contended, first := TakeIfFree(w, me, id, io);
    if ok || !contended || !terminated {
      return;
    }
    ghost var t := w.trace;
    w.Others(me);
    ok, looks := WaitLockReleased(w, me, polls, first.openAt + 1);
    LookedStays(t, w.trace, |old(w.trace)|, me, true, io, first, false);
  }

  /** A probe that gives the lock up again at once; it got it iff `owned`. */
  method ProbeAndRelease(w: World, me: nat, io: Calls) returns (owned: bool, failed: bool, ghost at: Look)
    requires w.Valid() && me in w.s.actors
    requires Fresh(w.s, me, Probing) || (w.s.actors[me].at == Polling && w.s.actors[me].mode == Takeover)
    modifies w
    ensures w.Valid() && me in w.s.actors && w.s.actors[me].mode == old(w.s).actors[me].mode && old(w.trace) <= w.trace
    ensures Looked(w.trace, |old(w.trace)|, me, false, io, at, owned)
    ensures w.s.actors[me].at == if owned then Free else if failed then GaveUp else Nothing
    ensures failed <==> !io.open
    ensures me !in old(w.s).won && (owned <==> me in w.s.won)
  {
    var probe;
    probe, failed, at := TryAcquireForReapAt(w, me, io);
    owned := probe != null;
    ghost var t := w.trace;
    if probe != null {
      probe.Release();
    }
    LookedStays(t, w.trace, |old(w.trace)|, me, false, io, at, owned);
  }

  /** One probe of the poll: true exactly when the lock could be taken, and was released again. */
  method PollOnce(w: World, me: nat, io: Calls) returns (ok: bool, failed: bool, ghost at: Look)
    requires w.Valid() && me in w.s.actors && w.s.actors[me].mode == Takeover
    requires w.s.actors[me].at.Contended? || w.s.actors[me].at == Nothing
    modifies w
    ensures w.Valid() && me in w.s.actors && w.s.actors[me].mode == Takeover && old(w.trace) <= w.trace
    ensures Looked(w.trace, |old(w.trace)|, me, false, io, at, ok)
    ensures w.s.actors[me].at == if ok then Free else if failed then GaveUp else Nothing
    ensures failed <==> !io.open
    ensures me !in old(w.s).won && (ok <==> me in w.s.won)
  {
    w.StartPoll(me);
    ghost var t := w.trace;
    ok, failed, at := ProbeAndRelease(w, me, io);
    LookedFrom(w.trace, |t|, |old(w.trace)|, me, false, io, at, ok);
  }

  /** The poll returns to the takeover: with success, or because the time is up. */
  method FinishPoll(w: World, me: nat, ghost polls: seq<Calls>, ok: bool, ghost from: nat, ghost looks: seq<Look>)
    requires w.Valid() && me in w.s.actors && w.s.actors[me].mode == Takeover
    requires if ok then w.s.actors[me].at == Free else w.s.actors[me].at.Contended? || w.s.actors[me].at == Nothing
    requires Missed(w.trace, from, me, polls, looks, ok)
    modifies w
    ensures w.Valid() && me in w.s.actors && old(w.trace) <= w.trace && Missed(w.trace, from, me, polls, looks, ok)
    ensures w.s.actors[me].at == (if ok then TookOver else GaveUp) && (ok <==> me in w.s.won)
  {
    ghost var t := w.trace;
    w.Finish(me, ok);
    MissedStays(t, w.trace, from, me, polls, looks, ok);
    WonInRun(w.trace, me);
  }

  /** Polls until a probe gets the lock, one fails, or the time is up; `from` is any point of the run so far. */
  method WaitLockReleased(w: World, me: nat, polls: seq<Calls>, ghost from: nat) returns (ok: bool, ghost looks: seq<Look>)
    requires w.Valid() && me in w.s.actors && w.s.actors[me].mode == Takeover && w.s.actors[me].at.Contended?
    requires from <= |w.trace|
    modifies w
    ensures w.Valid() && me in w.s.actors && old(w.trace) <= w.trace
    ensures Polled(w.trace, from, me, polls, looks, ok)
    ensures w.s.actors[me].at == (if ok then TookOver else GaveUp) && (ok <==> me in w.s.won)
  {
    looks := [];
    for i := 0 to |polls|
      invariant w.Valid() && me in w.s.actors && w.s.actors[me].mode == Takeover && old(w.trace) <= w.trace
      invariant w.s.actors[me].at.Contended? || w.s.actors[me].at == Nothing
      invariant MidPoll(w.trace, from, me, polls, looks, i)
    {
      var failed;
      ghost var t, at := w.trace, Look(0, 0);
      ok, failed, at := PollOnce(w, me, polls[i]);
      MidPollNext(t, w.trace, from, me, polls, looks, i, at, ok);
      looks := looks + [at];
      if ok {
        FinishPoll(w, me, polls, true, from, looks);
        return;
      }
      if failed {
        WonInRun(w.trace, me);
        return;
      }
      t := w.trace;
      w.Others(me);
      MissedStays(t, w.trace, from, me, polls, looks, false);
    }
    FinishPoll(w, me, polls, false, from, looks);
    return false, looks;
  }
}
