/**
 * The per-task lock file under every interleaving of system calls. Any number of processes open,
 * lock, record, retag, release, probe, take over and crash; the kernel lock belongs to an open
 * file description, and the holder record in the file is written separately from it.
 */
module FlockRuns {
  import opened Common

  type Pid = nat
  type Fd = nat
  type Description = nat

  datatype Holder = Holder(pid: Pid, host: string, phase: string, startedAt: nat)

  const NO_HOLDER := Holder(0, "", "", 0)

  datatype Content = Missing | Empty | Record(h: Holder)

  /** Reading back is best effort: anything but a record is the zero holder. */
  function ReadHolder(c: Content): Holder { if c.Record? then c.h else NO_HOLDER }

  /** What an actor is doing: hold the lock for a phase, probe it for the reaper, or take it over. */
  datatype Mode = Holding | Probing | Takeover

  /**
   * Where an actor stands between two system calls. `wrote` tells whether its record ever
   * reached the file. `Free` is a lock object whose descriptor field is nil.
   */
  datatype Place =
    | Start
    | Opened(fd: Fd, probe: bool)
    | Won(fd: Fd)
    | Truncated(fd: Fd, h: Holder, wrote: bool)
    | Held(fd: Fd, h: Holder, wrote: bool)
    | ProbeHeld(fd: Fd)
    | Dropping(fd: Fd)
    | Unlocked(fd: Fd)
    | Free
    | Refused(fd: Fd, probe: bool)
    | Contended(seen: Holder)
    | Polling
    | Nothing
    | TookOver
    | GaveUp
    | Dead

  datatype Actor = Actor(pid: Pid, mode: Mode, at: Place)

  /**
   * `won` remembers every actor whose flock succeeded and the file it found then, `touched` those
   * that have truncated the file since; both are bookkeeping that no step looks at.
   */
  datatype State = State(
    file: Content, locked: Option<Description>, fds: map<(Pid, Fd), Description>, next: Description,
    actors: map<nat, Actor>, won: map<nat, Content>, touched: set<nat>)

  const BOOT := State(Missing, None, map[], 0, map[], map[], {})

  /**
   * `a` names the acting actor; `fd` is the number the kernel picks, `ok` the outcome of a write.
   * A flock call that `fails` for another reason reads as contention to every caller.
   */
  datatype Step =
    | Spawn(a: nat, pid: Pid, mode: Mode)
    | Open(a: nat, fd: Fd)
    | OpenFails(a: nat)
    | Flock(a: nat, fails: bool)
    | Truncate(a: nat, h: Holder)
    | SkipRecord(a: nat, h: Holder)
    | WriteRecord(a: nat, ok: bool)
    | Retag(a: nat, phase: string, truncated: bool)
    | Release(a: nat)
    | Unlock(a: nat)
    | Close(a: nat)
    | Poll(a: nat)
    | Return(a: nat)
    | GiveUp(a: nat)
    | Crash(pid: Pid)

  predicate HasFd(p: Place) {
    p.Opened? || p.Won? || p.Truncated? || p.Held? || p.ProbeHeld? || p.Dropping? || p.Unlocked? || p.Refused?
  }

  /** Places from which the actor believes the kernel lock is its own. */
  predicate Owns(p: Place) { p.Won? || p.Truncated? || p.Held? || p.ProbeHeld? || p.Dropping? }

  function Move(s: State, a: nat, p: Place): map<nat, Actor>
    requires a in s.actors
  {
    s.actors[a := s.actors[a].(at := p)]
  }

  function Key(x: Actor): (Pid, Fd)
    requires HasFd(x.at)
  {
    (x.pid, x.at.fd)
  }

  /** A probe polls or starts with a stat, and never creates the file. */
  predicate Probes(x: Actor) { x.mode == Probing || x.at == Polling }

  predicate Enabled(s: State, step: Step) {
    match step
    case Spawn(a, _, _) => a !in s.actors && a !in s.won
    case Open(a, fd) =>
      a in s.actors && (s.actors[a].at == Start || s.actors[a].at == Polling) && (s.actors[a].pid, fd) !in s.fds
    case OpenFails(a) => a in s.actors && (s.actors[a].at == Start || s.actors[a].at == Polling)
    case Flock(a, _) => a in s.actors && s.actors[a].at.Opened? && Key(s.actors[a]) in s.fds
    case Truncate(a, h) => a in s.actors && s.actors[a].at.Won? && h.pid == s.actors[a].pid
    case SkipRecord(a, h) => a in s.actors && s.actors[a].at.Won? && h.pid == s.actors[a].pid
    case WriteRecord(a, _) => a in s.actors && s.actors[a].at.Truncated?
    case Retag(a, _, _) => a in s.actors && s.actors[a].at.Held?
    case Release(a) => a in s.actors && (s.actors[a].at.Held? || s.actors[a].at.ProbeHeld?)
    case Unlock(a) => a in s.actors && s.actors[a].at.Dropping? && Key(s.actors[a]) in s.fds
    case Close(a) =>
      a in s.actors && (s.actors[a].at.Unlocked? || s.actors[a].at.Refused?) && Key(s.actors[a]) in s.fds
    case Poll(a) => a in s.actors && s.actors[a].mode == Takeover && (s.actors[a].at.Contended? || s.actors[a].at == Nothing)
    case Return(a) => a in s.actors && s.actors[a].mode == Takeover && s.actors[a].at == Free
    case GiveUp(a) => a in s.actors && s.actors[a].mode == Takeover && (s.actors[a].at.Contended? || s.actors[a].at == Nothing)
    case Crash(_) => true
  }

  /** An open description joins the table; the file exists from here on. */
  function WithOpened(s: State, a: nat, fd: Fd): State
    requires a in s.actors
  {
    s.(file := if s.file == Missing then Empty else s.file,
       fds := s.fds[(s.actors[a].pid, fd) := s.next], next := s.next + 1,
       actors := Move(s, a, Opened(fd, Probes(s.actors[a]))))
  }

  /** A non-blocking exclusive flock: it succeeds when the lock is free or already on this description. */
  function WithFlock(s: State, a: nat, fails: bool): State
    requires a in s.actors && s.actors[a].at.Opened? && Key(s.actors[a]) in s.fds
  {
    var o, p := s.fds[Key(s.actors[a])], s.actors[a].at;
    if !fails && (s.locked == None || s.locked == Some(o)) then
      s.(locked := Some(o), won := s.won[a := s.file], actors := Move(s, a, if p.probe then ProbeHeld(p.fd) else Won(p.fd)))
    else s.(actors := Move(s, a, Refused(p.fd, p.probe)))
  }

  /** The lock after description `o` gave it up; giving up a lock one does not have is harmless. */
  function Dropped(locked: Option<Description>, o: Description): Option<Description> {
    if locked == Some(o) then None else locked
  }

  function WithUnlocked(s: State, a: nat): State
    requires a in s.actors && s.actors[a].at.Dropping? && Key(s.actors[a]) in s.fds
  {
    s.(locked := Dropped(s.locked, s.fds[Key(s.actors[a])]), actors := Move(s, a, Unlocked(s.actors[a].at.fd)))
  }

  function WithClosed(s: State, a: nat): State
    requires a in s.actors && (s.actors[a].at.Unlocked? || s.actors[a].at.Refused?) && Key(s.actors[a]) in s.fds
  {
    var k, p := Key(s.actors[a]), s.actors[a].at;
    s.(locked := Dropped(s.locked, s.fds[k]), fds := s.fds - {k},
       actors := Move(s, a, if p.Unlocked? then Free else if p.probe then Nothing else Contended(ReadHolder(s.file))))
  }

  function WithCrashed(s: State, pid: Pid): State {
    s.(fds := map k | k in s.fds && k.0 != pid :: s.fds[k],
       locked := if exists k | k in s.fds :: k.0 == pid && s.locked == Some(s.fds[k]) then None else s.locked,
       actors := map a | a in s.actors :: if s.actors[a].pid == pid then s.actors[a].(at := Dead) else s.actors[a])
  }

  function WithPlace(s: State, a: nat, p: Place): State
    requires a in s.actors
  {
    s.(actors := Move(s, a, p))
  }

  function WithTruncated(s: State, a: nat): State { s.(file := Empty, touched := s.touched + {a}) }

  function Do(s: State, step: Step): State {
    if !Enabled(s, step) then s
    else match step
      case Spawn(a, pid, mode) => s.(actors := s.actors[a := Actor(pid, mode, Start)])
      case Open(a, fd) =>
        if Probes(s.actors[a]) && s.file == Missing then WithPlace(s, a, Nothing) else WithOpened(s, a, fd)
      case OpenFails(a) => WithPlace(s, a, GaveUp)
      case Flock(a, fails) => WithFlock(s, a, fails)
      case Truncate(a, h) => WithPlace(WithTruncated(s, a), a, Truncated(s.actors[a].at.fd, h, false))
      case SkipRecord(a, h) => WithPlace(s, a, Held(s.actors[a].at.fd, h, false))
      case WriteRecord(a, ok) =>
        var p := s.actors[a].at;
        WithPlace(s.(file := if ok then Record(p.h) else s.file), a, Held(p.fd, p.h, p.wrote || ok))
      case Retag(a, phase, truncated) =>
        var p := s.actors[a].at;
        if truncated then WithPlace(WithTruncated(s, a), a, Truncated(p.fd, p.h.(phase := phase), p.wrote))
        else WithPlace(s, a, Held(p.fd, p.h.(phase := phase), p.wrote))
      case Release(a) => WithPlace(s, a, Dropping(s.actors[a].at.fd))
      case Unlock(a) => WithUnlocked(s, a)
      case Close(a) => WithClosed(s, a)
      case Poll(a) => WithPlace(s, a, Polling)
      case Return(a) => WithPlace(s, a, TookOver)
      case GiveUp(a) => WithPlace(s, a, GaveUp)
      case Crash(pid) => WithCrashed(s, pid)
  }

  function Exec(s: State, steps: seq<Step>): State
    decreases |steps|
  {
    if steps == [] then s else Exec(Do(s, steps[0]), steps[1..])
  }

  // ----- The invariant -----

  /** The kernel's table: descriptions are distinct and below the supply. */
  ghost predicate TableGood(s: State) {
    && (forall k :: k in s.fds ==> s.fds[k] < s.next)
    && (forall k, l :: k in s.fds && l in s.fds && k != l ==> s.fds[k] != s.fds[l])
  }

  /** The file is empty or carries the record of the actor that holds the lock and once wrote it. */
  predicate FileNames(file: Content, h: Holder) {
    file == Empty || (file.Record? && file.h.(phase := h.phase) == h)
  }

  /** Places an actor reaches only after its flock call succeeded. */
  predicate PastLock(p: Place) { Owns(p) || p.Unlocked? || p == Free || p == TookOver }

  /** The places of a reaper probe: it goes from open to probe-held, never through the record writes. */
  predicate NeverWrites(p: Place) { !p.Won? && !p.Truncated? && !p.Held? && (p.Opened? ==> p.probe) }

  /** Until the owner truncates the file it holds what the owner found; afterwards nothing or its own record. */
  ghost predicate FileFrom(s: State, a: nat)
    requires a in s.actors
  {
    if a in s.touched then s.file == Empty || (s.file.Record? && s.file.h.pid == s.actors[a].pid)
    else a in s.won && s.file == s.won[a]
  }

  /**
   * One actor's share: its descriptor field names an entry of its process's table, the lock it
   * believes to own is its own, its record is what the file says, and it is on record as a winner
   * exactly when its flock succeeded.
   */
  ghost predicate ActorGood(s: State, a: nat)
    requires a in s.actors
  {
    var x := s.actors[a];
    && (HasFd(x.at) ==> Key(x) in s.fds && s.file != Missing)
    && (Owns(x.at) ==> s.locked == Some(s.fds[Key(x)]))
    && (x.at.Truncated? ==> s.file == Empty && x.at.h.pid == x.pid)
    && (x.at.Held? ==> x.at.h.pid == x.pid && (x.at.wrote ==> FileNames(s.file, x.at.h)))
    && (x.at != Dead ==> (a in s.won <==> PastLock(x.at)))
    && (x.at.Truncated? || (x.at.Held? && x.at.wrote) ==> a in s.touched)
    && (Owns(x.at) ==> FileFrom(s, a))
    && (x.mode == Probing ==> NeverWrites(x.at))
  }

  /** No two actors share a table entry. */
  ghost predicate Separate(s: State) {
    forall a, b :: a in s.actors && b in s.actors && a != b && HasFd(s.actors[a].at) && HasFd(s.actors[b].at) ==>
      Key(s.actors[a]) != Key(s.actors[b])
  }

  /** A held lock is held by some actor that knows it. */
  ghost predicate LockHasOwner(s: State) {
    s.locked.Some? ==> exists a :: a in s.actors && Owns(s.actors[a].at)
  }

  ghost predicate Good(s: State) {
    && TableGood(s) && Separate(s) && LockHasOwner(s) && s.touched <= s.won.Keys
    && forall a :: a in s.actors ==> ActorGood(s, a)
  }

  /** Two actors that both believe to own the lock are the same actor. */
  lemma MutualExclusion(s: State, a: nat, b: nat)
    requires Good(s) && a in s.actors && b in s.actors && Owns(s.actors[a].at) && Owns(s.actors[b].at)
    ensures a == b
  {
    assert ActorGood(s, a) && ActorGood(s, b);
  }

  /** A live actor is on record as a winner exactly when it is past its flock. */
  lemma WonExactly(s: State, a: nat)
    requires Good(s) && a in s.actors && s.actors[a].at != Dead
    ensures a in s.won <==> PastLock(s.actors[a].at)
  {
    assert ActorGood(s, a);
  }

  // ----- Every step keeps it -----

  /** A step that moves one actor keeps the owner of the lock, unless that actor lets it go. */
  lemma OwnerStays(s: State, t: State, a: nat)
    requires LockHasOwner(s) && a in s.actors && t.locked == s.locked
    requires forall b :: b in s.actors && b != a ==> b in t.actors && t.actors[b] == s.actors[b]
    requires a in t.actors && (Owns(s.actors[a].at) ==> Owns(t.actors[a].at))
    ensures LockHasOwner(t)
  {
    if t.locked.Some? {
      var o :| o in s.actors && Owns(s.actors[o].at);
      assert o in t.actors && Owns(t.actors[o].at);
    }
  }

  /** A move within the same table entry, or out of it, keeps the entries separate. */
  lemma StaysSeparate(s: State, t: State, a: nat)
    requires Separate(s) && a in s.actors && a in t.actors && t.actors == s.actors[a := t.actors[a]]
    requires HasFd(t.actors[a].at) ==> HasFd(s.actors[a].at) && Key(t.actors[a]) == Key(s.actors[a])
    ensures Separate(t)
  {
  }

  /** Nothing that concerns actor `b` changed between `s` and `t`. */
  ghost predicate Untouched(s: State, t: State, b: nat)
    requires b in s.actors
  {
    && b in t.actors && t.actors[b] == s.actors[b] && (b in t.won <==> b in s.won)
    && (b in t.touched <==> b in s.touched) && (b in s.won ==> t.won[b] == s.won[b])
    && (HasFd(s.actors[b].at) && Key(s.actors[b]) in s.fds ==>
          Key(s.actors[b]) in t.fds && t.fds[Key(s.actors[b])] == s.fds[Key(s.actors[b])])
    && (Owns(s.actors[b].at) ==> t.locked == s.locked && t.file == s.file)
    && (s.file != Missing ==> t.file != Missing)
  }

  lemma OtherGood(s: State, t: State, b: nat)
    requires b in s.actors && ActorGood(s, b) && Untouched(s, t, b)
    ensures ActorGood(t, b)
  {
  }

  /** A step of `a` that leaves everybody else untouched needs checking for `a` only. */
  lemma FramedGood(s: State, t: State, a: nat)
    requires Good(s) && a in s.actors && t.actors.Keys == s.actors.Keys
    requires forall b :: b in s.actors && b != a ==> Untouched(s, t, b)
    requires TableGood(t) && Separate(t) && LockHasOwner(t) && t.touched <= t.won.Keys && ActorGood(t, a)
    ensures Good(t)
  {
    forall b | b in t.actors
      ensures ActorGood(t, b)
    {
      if b != a {
        assert ActorGood(s, b);
        OtherGood(s, t, b);
      }
    }
  }

  /** Nobody else owns the lock that `a` owns. */
  lemma SoleOwner(s: State, a: nat)
    requires Good(s) && a in s.actors && Owns(s.actors[a].at)
    ensures forall b :: b in s.actors && b != a ==> !Owns(s.actors[b].at)
  {
    forall b | b in s.actors && b != a
      ensures !Owns(s.actors[b].at)
    {
      if Owns(s.actors[b].at) {
        MutualExclusion(s, a, b);
      }
    }
  }

  lemma KeysHeld(s: State)
    requires Good(s)
    ensures forall b :: b in s.actors && HasFd(s.actors[b].at) ==> Key(s.actors[b]) in s.fds && s.file != Missing
  {
    forall b | b in s.actors && HasFd(s.actors[b].at)
      ensures Key(s.actors[b]) in s.fds && s.file != Missing
    {
      assert ActorGood(s, b);
    }
  }

  /** The lock is never on the description of an actor that does not know it. */
  lemma NotMine(s: State, a: nat)
    requires Good(s) && a in s.actors && HasFd(s.actors[a].at) && !Owns(s.actors[a].at) && Key(s.actors[a]) in s.fds
    ensures s.locked != Some(s.fds[Key(s.actors[a])])
  {
    if s.locked.Some? {
      var o :| o in s.actors && Owns(s.actors[o].at);
      assert ActorGood(s, o);
      assert Key(s.actors[o]) != Key(s.actors[a]);
    }
  }

  lemma SpawnKeeps(s: State, a: nat, pid: Pid, mode: Mode)
    requires Good(s) && a !in s.actors && a !in s.won
    ensures Good(s.(actors := s.actors[a := Actor(pid, mode, Start)]))
  {
    var t := s.(actors := s.actors[a := Actor(pid, mode, Start)]);
    forall b | b in t.actors
      ensures ActorGood(t, b)
    {
      if b != a {
        assert ActorGood(s, b);
        OtherGood(s, t, b);
      }
    }
    if t.locked.Some? {
      var o :| o in s.actors && Owns(s.actors[o].at);
      assert o in t.actors && Owns(t.actors[o].at);
    }
  }

  /** The table after an open: a new entry with a new description, and everybody else as before. */
  lemma OpenFrames(s: State, a: nat, fd: Fd)
    requires Good(s) && a in s.actors && (s.actors[a].pid, fd) !in s.fds
    requires s.actors[a].at == Start || s.actors[a].at == Polling
    ensures var t := WithOpened(s, a, fd);
      TableGood(t) && Separate(t) && forall b :: b in s.actors && b != a ==> Untouched(s, t, b)
  {
    KeysHeld(s);
  }

  lemma OpenKeeps(s: State, a: nat, fd: Fd)
    requires Good(s) && a in s.actors && (s.actors[a].pid, fd) !in s.fds
    requires s.actors[a].at == Start || s.actors[a].at == Polling
    ensures Good(WithOpened(s, a, fd))
  {
    var t := WithOpened(s, a, fd);
    OpenFrames(s, a, fd);
    OwnerStays(s, t, a);
    assert ActorGood(s, a);
    assert ActorGood(t, a);
    FramedGood(s, t, a);
  }

  /** A flock that succeeds: nobody owned the lock before. */
  lemma FlockWins(s: State, a: nat)
    requires Good(s) && a in s.actors && s.actors[a].at.Opened? && Key(s.actors[a]) in s.fds && s.locked == None
    ensures Good(WithFlock(s, a, false))
  {
    var t := WithFlock(s, a, false);
    StaysSeparate(s, t, a);
    assert ActorGood(s, a) && Owns(t.actors[a].at);
    forall b | b in s.actors
      ensures !Owns(s.actors[b].at)
    {
      assert ActorGood(s, b);
    }
    assert ActorGood(t, a);
    FramedGood(s, t, a);
  }

  lemma FlockKeeps(s: State, a: nat, fails: bool)
    requires Good(s) && a in s.actors && s.actors[a].at.Opened? && Key(s.actors[a]) in s.fds
    ensures Good(WithFlock(s, a, fails))
  {
    if s.locked.Some? || fails {
      NotMine(s, a);
      PlainMoveKeeps(s, a, Refused(s.actors[a].at.fd, s.actors[a].at.probe));
    } else {
      FlockWins(s, a);
    }
  }

  /** The holder rewriting the file: nobody else's record is at stake. */
  lemma WriterKeeps(s: State, a: nat, file: Content, touched: set<nat>, p: Place)
    requires Good(s) && a in s.actors && Owns(s.actors[a].at) && s.actors[a].mode != Probing
    requires (p.Truncated? || p.Held?) && p.fd == s.actors[a].at.fd
    requires p.h.pid == s.actors[a].pid
    requires p.Truncated? ==> file == Empty
    requires p.Held? && p.wrote ==> FileNames(file, p.h)
    requires touched == s.touched || (touched == s.touched + {a} && file == Empty)
    requires p.Truncated? || (p.Held? && p.wrote) || file != s.file ==> a in touched
    requires file == s.file || file == Empty || file == Record(p.h)
    ensures Good(WithPlace(s.(file := file, touched := touched), a, p))
  {
    var t := WithPlace(s.(file := file, touched := touched), a, p);
    KeysHeld(s);
    StaysSeparate(s, t, a);
    OwnerStays(s, t, a);
    SoleOwner(s, a);
    assert ActorGood(s, a);
    assert ActorGood(t, a);
    FramedGood(s, t, a);
  }

  /** Moves that touch neither the file nor the kernel. */
  lemma PlainMoveKeeps(s: State, a: nat, p: Place)
    requires Good(s) && a in s.actors && !p.Opened? && !p.Won? && !p.Truncated? && !p.Held?
    requires HasFd(p) ==> HasFd(s.actors[a].at) && p.fd == s.actors[a].at.fd
    requires Owns(p) <==> Owns(s.actors[a].at)
    requires p != Dead && s.actors[a].at != Dead && (PastLock(p) <==> PastLock(s.actors[a].at))
    ensures Good(WithPlace(s, a, p))
  {
    var t := WithPlace(s, a, p);
    KeysHeld(s);
    StaysSeparate(s, t, a);
    OwnerStays(s, t, a);
    assert ActorGood(s, a);
    FramedGood(s, t, a);
  }

  lemma UnlockKeeps(s: State, a: nat)
    requires Good(s) && a in s.actors && s.actors[a].at.Dropping? && Key(s.actors[a]) in s.fds
    ensures Good(WithUnlocked(s, a))
  {
    var t := WithUnlocked(s, a);
    KeysHeld(s);
    StaysSeparate(s, t, a);
    SoleOwner(s, a);
    assert ActorGood(s, a);
    FramedGood(s, t, a);
  }

  /** The table after a close: everybody else's entry is still there, and the lock is where it was. */
  lemma CloseFrames(s: State, a: nat)
    requires Good(s) && a in s.actors && (s.actors[a].at.Unlocked? || s.actors[a].at.Refused?) && Key(s.actors[a]) in s.fds
    ensures var t := WithClosed(s, a);
      t.locked == s.locked && TableGood(t) && Separate(t) && LockHasOwner(t)
      && forall b :: b in s.actors && b != a ==> Untouched(s, t, b)
  {
    var t := WithClosed(s, a);
    KeysHeld(s);
    NotMine(s, a);
    StaysSeparate(s, t, a);
    OwnerStays(s, t, a);
    assert forall b :: b in s.actors && b != a && HasFd(s.actors[b].at) ==> Key(s.actors[b]) != Key(s.actors[a]);
  }

  lemma CloseKeeps(s: State, a: nat)
    requires Good(s) && a in s.actors && (s.actors[a].at.Unlocked? || s.actors[a].at.Refused?) && Key(s.actors[a]) in s.fds
    ensures Good(WithClosed(s, a))
  {
    CloseFrames(s, a);
    assert ActorGood(s, a);
    assert ActorGood(WithClosed(s, a), a);
    FramedGood(s, WithClosed(s, a), a);
  }

  /** A crash closes every descriptor of the process, and with it the lock if it was there. */
  lemma CrashKeeps(s: State, pid: Pid)
    requires Good(s)
    ensures Good(WithCrashed(s, pid))
  {
    var t := WithCrashed(s, pid);
    forall b | b in t.actors
      ensures ActorGood(t, b)
    {
      assert ActorGood(s, b);
      if s.actors[b].pid != pid {
        OtherGood(s, t, b);
      }
    }
    if t.locked.Some? {
      var o :| o in s.actors && Owns(s.actors[o].at);
      assert ActorGood(s, o);
      assert o in t.actors && Owns(t.actors[o].at);
    }
  }

  /** Writes of the holder record, as steps. */
  lemma RecordStepKeeps(s: State, step: Step)
    requires Good(s) && Enabled(s, step)
    requires step.Truncate? || step.SkipRecord? || step.WriteRecord? || step.Retag?
    ensures Good(Do(s, step))
  {
    var p := s.actors[step.a].at;
    assert ActorGood(s, step.a);
    match step {
      case Truncate(a, h) => WriterKeeps(s, a, Empty, s.touched + {a}, Truncated(p.fd, h, false));
      case SkipRecord(a, h) => WriterKeeps(s, a, s.file, s.touched, Held(p.fd, h, false));
      case WriteRecord(a, ok) =>
        WriterKeeps(s, a, if ok then Record(p.h) else s.file, s.touched, Held(p.fd, p.h, p.wrote || ok));
      case Retag(a, phase, truncated) =>
        if truncated {
          WriterKeeps(s, a, Empty, s.touched + {a}, Truncated(p.fd, p.h.(phase := phase), p.wrote));
        } else {
          WriterKeeps(s, a, s.file, s.touched, Held(p.fd, p.h.(phase := phase), p.wrote));
        }
    }
  }

  predicate PlainMove(step: Step) {
    step.OpenFails? || step.Release? || step.Poll? || step.Return? || step.GiveUp?
  }

  function MovedTo(s: State, step: Step): Place
    requires PlainMove(step) && Enabled(s, step)
  {
    match step
    case Release(a) => Dropping(s.actors[a].at.fd)
    case Poll(_) => Polling
    case Return(_) => TookOver
    case _ => GaveUp
  }

  lemma MoveOnly(s: State, step: Step)
    requires PlainMove(step) && Enabled(s, step)
    ensures Do(s, step) == WithPlace(s, step.a, MovedTo(s, step))
  {
  }

  /** Moves of one actor, as steps. */
  lemma MoveStepKeeps(s: State, step: Step)
    requires Good(s) && PlainMove(step) && Enabled(s, step)
    ensures Good(Do(s, step))
  {
    MoveOnly(s, step);
    PlainMoveKeeps(s, step.a, MovedTo(s, step));
  }

  lemma StepKeeps(s: State, step: Step)
    requires Good(s)
    ensures Good(Do(s, step))
  {
    if Enabled(s, step) {
      match step {
        case Spawn(a, pid, mode) => SpawnKeeps(s, a, pid, mode);
        case Open(a, fd) =>
          if Probes(s.actors[a]) && s.file == Missing {
            PlainMoveKeeps(s, a, Nothing);
          } else {
            OpenKeeps(s, a, fd);
          }
        case Flock(a, fails) => FlockKeeps(s, a, fails);
        case Unlock(a) => UnlockKeeps(s, a);
        case Close(a) => CloseKeeps(s, a);
        case Crash(pid) => CrashKeeps(s, pid);
        case Truncate(_, _) => RecordStepKeeps(s, step);
        case SkipRecord(_, _) => RecordStepKeeps(s, step);
        case WriteRecord(_, _) => RecordStepKeeps(s, step);
        case Retag(_, _, _) => RecordStepKeeps(s, step);
        case _ => MoveStepKeeps(s, step);
      }
    }
  }

  lemma {:induction false} RunKeeps(s: State, steps: seq<Step>)
    requires Good(s)
    ensures Good(Exec(s, steps))
    decreases |steps|
  {
    if steps != [] {
      StepKeeps(s, steps[0]);
      RunKeeps(Do(s, steps[0]), steps[1..]);
    }
  }

  // ----- What every interleaving guarantees -----

  lemma BootGood()
    ensures Good(BOOT)
  {
  }

  lemma ReachedGood(steps: seq<Step>)
    ensures Good(Exec(BOOT, steps))
  {
    BootGood();
    RunKeeps(BOOT, steps);
  }

  /** At any moment of any run at most one actor owns the lock, and then the kernel agrees. */
  lemma LockSafety(steps: seq<Step>, a: nat, b: nat)
    requires var s := Exec(BOOT, steps); a in s.actors && b in s.actors && Owns(s.actors[a].at) && Owns(s.actors[b].at)
    ensures a == b
    ensures var s := Exec(BOOT, steps); Key(s.actors[a]) in s.fds && s.locked == Some(s.fds[Key(s.actors[a])])
  {
    var s := Exec(BOOT, steps);
    ReachedGood(steps);
    MutualExclusion(s, a, b);
    assert ActorGood(s, a);
  }

  /** The kernel lock never outlives its owner: it is held exactly while some live actor owns it. */
  lemma LockHeldIffOwned(steps: seq<Step>)
    ensures var s := Exec(BOOT, steps);
      s.locked.Some? <==> exists a :: a in s.actors && Owns(s.actors[a].at)
  {
    var s := Exec(BOOT, steps);
    ReachedGood(steps);
    if a :| a in s.actors && Owns(s.actors[a].at) {
      assert ActorGood(s, a);
    }
  }

  /** Once a holder's record was written, the file is empty or names that holder until it lets go or dies. */
  lemma RecordNamesHolder(steps: seq<Step>, a: nat)
    requires var s := Exec(BOOT, steps); a in s.actors && s.actors[a].at.Held? && s.actors[a].at.wrote
    ensures var s := Exec(BOOT, steps);
      && (s.file == Empty || (s.file.Record? && s.file.h.pid == s.actors[a].pid))
      && (s.file.Record? ==> s.file.h.startedAt == s.actors[a].at.h.startedAt && s.file.h.host == s.actors[a].at.h.host)
  {
    ReachedGood(steps);
    assert ActorGood(Exec(BOOT, steps), a);
  }

  /** A probe leaves the last record in place: none of its steps changes a file that exists. */
  lemma ProbeNeverWrites(steps: seq<Step>, step: Step)
    requires var s := Exec(BOOT, steps); !step.Crash? && step.a in s.actors && s.actors[step.a].mode == Probing
    ensures Do(Exec(BOOT, steps), step).file == Exec(BOOT, steps).file
  {
    ReachedGood(steps);
    assert ActorGood(Exec(BOOT, steps), step.a);
  }

  lemma {:induction false} ExecSnoc(s: State, steps: seq<Step>, step: Step)
    ensures Exec(s, steps + [step]) == Do(Exec(s, steps), step)
    decreases |steps|
  {
    if steps == [] {
      assert steps + [step] == [step] && [step][1..] == [];
    } else {
      assert (steps + [step])[1..] == steps[1..] + [step];
      ExecSnoc(Do(s, steps[0]), steps[1..], step);
    }
  }

  /** At the end of some prefix of the run, `a` itself owned the lock. */
  ghost predicate OnceOwned(steps: seq<Step>, a: nat) {
    exists i | 0 <= i <= |steps| :: OwnedAfter(steps[..i], a)
  }

  ghost predicate OwnedAfter(steps: seq<Step>, a: nat) {
    var s := Exec(BOOT, steps);
    a in s.actors && Owns(s.actors[a].at)
  }

  /** Step `i` of the run is the flock with which `a` got the lock, and the file was `file` then. */
  ghost predicate WonAt(steps: seq<Step>, a: nat, file: Content, i: nat) {
    && i < |steps| && steps[i] == Flock(a, false)
    && Exec(BOOT, steps[..i]).file == file && OwnedAfter(steps[..i + 1], a)
  }

  lemma WonAtLonger(steps: seq<Step>, step: Step, a: nat, file: Content, i: nat)
    requires WonAt(steps, a, file, i)
    ensures WonAt(steps + [step], a, file, i)
  {
    assert (steps + [step])[..i] == steps[..i] && (steps + [step])[..i + 1] == steps[..i + 1];
  }

  /** A recorded win is a flock of the run that got the lock, and the recorded file is the one found then. */
  lemma {:induction false} WonMeansOwned(steps: seq<Step>, a: nat) returns (i: nat)
    requires a in Exec(BOOT, steps).won
    ensures WonAt(steps, a, Exec(BOOT, steps).won[a], i) && OnceOwned(steps, a)
    decreases |steps|
  {
    var n := |steps| - 1;
    var before, step := steps[..n], steps[n];
    assert steps == before + [step];
    ExecSnoc(BOOT, before, step);
    var s := Exec(BOOT, before);
    if a in s.won && Exec(BOOT, steps).won[a] == s.won[a] {
      i := WonMeansOwned(before, a);
      WonAtLonger(before, step, a, s.won[a], i);
    } else {
      i := n;
      assert step == Flock(a, false);
      assert steps[..n + 1] == steps && steps[..n] == before;
    }
  }

  /** The steps by which `a` empties the file. */
  predicate Truncates(s: State, step: Step, a: nat) {
    Enabled(s, step) && ((step.Truncate? && step.a == a) || (step.Retag? && step.a == a && step.truncated))
  }

  /** Step `i` of the run is one with which `a` emptied the file. */
  ghost predicate TruncatedAt(steps: seq<Step>, a: nat, i: nat) {
    i < |steps| && Truncates(Exec(BOOT, steps[..i]), steps[i], a)
  }

  lemma TruncatedLonger(steps: seq<Step>, step: Step, a: nat, i: nat)
    ensures i < |steps| ==> (TruncatedAt(steps + [step], a, i) <==> TruncatedAt(steps, a, i))
    ensures TruncatedAt(steps + [step], a, |steps|) <==> Truncates(Exec(BOOT, steps), step, a)
  {
    var longer := steps + [step];
    assert longer[..|steps|] == steps;
    if i < |steps| {
      assert longer[..i] == steps[..i];
    }
  }

  /** An actor is on record as having truncated the file exactly when a step of the run was its truncation. */
  lemma {:induction false} TouchedMeansTruncated(steps: seq<Step>, a: nat)
    ensures a in Exec(BOOT, steps).touched <==> exists i: nat :: TruncatedAt(steps, a, i)
    decreases |steps|
  {
    if steps != [] {
      var n := |steps| - 1;
      var before, step := steps[..n], steps[n];
      assert steps == before + [step];
      ExecSnoc(BOOT, before, step);
      TouchedMeansTruncated(before, a);
      TouchedNext(Exec(BOOT, before), step, a);
      forall i: nat
        ensures TruncatedAt(steps, a, i) <==> TruncatedAt(before, a, i) || (i == n && Truncates(Exec(BOOT, before), step, a))
      {
        TruncatedLonger(before, step, a, i);
      }
      if i: nat :| TruncatedAt(before, a, i) {
        assert TruncatedAt(steps, a, i);
      }
      if Truncates(Exec(BOOT, before), step, a) {
        assert TruncatedAt(steps, a, n);
      }
    }
  }

  lemma TouchedNext(s: State, step: Step, a: nat)
    ensures a in Do(s, step).touched <==> a in s.touched || Truncates(s, step, a)
  {
  }

  /** A takeover reports success only after it has itself held the lock. */
  lemma TakeoverHeldLock(steps: seq<Step>, a: nat)
    requires var s := Exec(BOOT, steps); a in s.actors && s.actors[a].at == TookOver
    ensures OnceOwned(steps, a)
  {
    ReachedGood(steps);
    assert ActorGood(Exec(BOOT, steps), a);
    var _ := WonMeansOwned(steps, a);
  }

  /** The file carries the record of a process other than the one with this number. */
  predicate Foreign(file: Content, pid: Pid) { file.Record? && file.h.pid != pid }

  /** The owner's share of the invariant, as what a reader of the file sees. */
  lemma FileWhileOwned(s: State, owner: nat)
    requires Good(s) && owner in s.actors && Owns(s.actors[owner].at)
    ensures var seen, pid := ReadHolder(s.file), s.actors[owner].pid;
      && owner in s.won
      && (owner in s.touched ==> seen == NO_HOLDER || seen.pid == pid)
      && (owner !in s.touched ==> s.file == s.won[owner])
      && (Foreign(s.file, pid) <==> owner !in s.touched && Foreign(s.won[owner], pid))
  {
    assert ActorGood(s, owner);
  }

  /**
   * What a refused takeover reads while somebody owns the lock, whose flock was step `i`. It is
   * another process's record exactly when that step found one and the owner has not truncated the
   * file since; once the owner has, the record is missing or the owner's own.
   */
  lemma SeenNamesOwner(steps: seq<Step>, a: nat, owner: nat) returns (i: nat)
    requires var s := Exec(BOOT, steps);
      && a in s.actors && s.actors[a].at.Refused? && !s.actors[a].at.probe
      && owner in s.actors && Owns(s.actors[owner].at)
    ensures i < |steps| && WonAt(steps, owner, Exec(BOOT, steps[..i]).file, i)
    ensures var s, found := Exec(BOOT, steps), Exec(BOOT, steps[..i]).file;
      var seen, pid := ReadHolder(s.file), s.actors[owner].pid;
      && Do(s, Close(a)).actors[a].at == Contended(seen)
      && (if exists k: nat :: TruncatedAt(steps, owner, k) then seen == NO_HOLDER || seen.pid == pid else s.file == found)
      && (Foreign(s.file, pid) <==> !(exists k: nat :: TruncatedAt(steps, owner, k)) && Foreign(found, pid))
  {
    var s := Exec(BOOT, steps);
    ReachedGood(steps);
    FileWhileOwned(s, owner);
    assert ActorGood(s, a);
    i := WonMeansOwned(steps, owner);
    TouchedMeansTruncated(steps, owner);
  }

  lemma {:induction false} ExecAppend(s: State, a: seq<Step>, b: seq<Step>)
    ensures Exec(s, a + b) == Exec(Exec(s, a), b)
    decreases |a|
  {
    if a == [] {
      assert a + b == b;
    } else {
      assert (a + b)[1..] == a[1..] + b;
      ExecAppend(Do(s, a[0]), a[1..], b);
    }
  }

  lemma ExecThree(s: State, x: Step, y: Step, z: Step)
    ensures Exec(s, [x, y, z]) == Do(Do(Do(s, x), y), z)
  {
    var t := Do(s, x);
    assert [x, y, z][1..] == [y, z] && [y, z][1..] == [z] && [z][1..] == [];
    assert Exec(t, [y, z]) == Exec(Do(t, y), [z]);
  }

  predicate StandsAt(s: State, a: nat, p: Place) { a in s.actors && s.actors[a].at == p }

  /** A process takes the lock, records itself and dies; a probe gets the lock; a takeover is refused. */
  function StaleRun(h: Holder): seq<Step> {
    [Spawn(0, 1, Holding), Open(0, 3), Flock(0, false)] + [Truncate(0, h), WriteRecord(0, true), Crash(1)]
    + [Spawn(1, 2, Probing), Open(1, 3), Flock(1, false)] + [Spawn(2, 4, Takeover), Open(2, 3), Flock(2, false)]
  }

  /**
   * Otherwise the record may be a dead process's: here the lock is a probe's, which never writes,
   * and the takeover reads the record of process 1, which is gone.
   */
  lemma StaleRecordSeen(h: Holder)
    requires h.pid == 1
    ensures var s := Exec(BOOT, StaleRun(h));
      && 0 in s.actors && s.actors[0] == Actor(1, Holding, Dead)
      && 1 in s.actors && s.actors[1] == Actor(2, Probing, ProbeHeld(3))
      && StandsAt(s, 2, Refused(3, false)) && StandsAt(Do(s, Close(2)), 2, Contended(h))
  {
    var a, b := [Spawn(0, 1, Holding), Open(0, 3), Flock(0, false)], [Truncate(0, h), WriteRecord(0, true), Crash(1)];
    var c, d := [Spawn(1, 2, Probing), Open(1, 3), Flock(1, false)], [Spawn(2, 4, Takeover), Open(2, 3), Flock(2, false)];
    ExecAppend(BOOT, a + b + c, d);
    ExecAppend(BOOT, a + b, c);
    ExecAppend(BOOT, a, b);
    StaleOwner(h);
    StaleProbe(h);
    StaleRefused(h);
    StaleClosed(h, Exec(BOOT, StaleRun(h)));
  }

  const GONE := Actor(1, Holding, Dead)

  function Orphaned(h: Holder): State { State(Record(h), None, map[], 1, map[0 := GONE], map[0 := Empty], {0}) }

  function Probed(h: Holder): State {
    State(Record(h), Some(1), map[(2, 3) := 1], 2, map[0 := GONE, 1 := Actor(2, Probing, ProbeHeld(3))], map[0 := Empty, 1 := Record(h)], {0})
  }

  lemma StaleOwner(h: Holder)
    requires h.pid == 1
    ensures var s := Exec(BOOT, [Spawn(0, 1, Holding), Open(0, 3), Flock(0, false)]);
      Exec(s, [Truncate(0, h), WriteRecord(0, true), Crash(1)]) == Orphaned(h)
  {
    ExecThree(BOOT, Spawn(0, 1, Holding), Open(0, 3), Flock(0, false));
    var s := Do(Do(Do(BOOT, Spawn(0, 1, Holding)), Open(0, 3)), Flock(0, false));
    assert s == State(Empty, Some(0), map[(1, 3) := 0], 1, map[0 := Actor(1, Holding, Won(3))], map[0 := Empty], {});
    ExecThree(s, Truncate(0, h), WriteRecord(0, true), Crash(1));
    var t := Do(Do(s, Truncate(0, h)), WriteRecord(0, true));
    assert t == State(Record(h), Some(0), map[(1, 3) := 0], 1, map[0 := Actor(1, Holding, Held(3, h, true))], map[0 := Empty], {0});
    assert (1, 3) in t.fds;
    assert Do(t, Crash(1)).fds == map[] && Do(t, Crash(1)).actors == map[0 := GONE];
  }

  lemma StaleProbe(h: Holder)
    ensures Exec(Orphaned(h), [Spawn(1, 2, Probing), Open(1, 3), Flock(1, false)]) == Probed(h)
  {
    var s := Orphaned(h);
    ExecThree(s, Spawn(1, 2, Probing), Open(1, 3), Flock(1, false));
    var t := Do(Do(s, Spawn(1, 2, Probing)), Open(1, 3));
    assert t == State(Record(h), None, map[(2, 3) := 1], 2,
                      map[0 := GONE, 1 := Actor(2, Probing, Opened(3, true))], map[0 := Empty], {0});
  }

  function Blocked(h: Holder): State {
    State(Record(h), Some(1), map[(2, 3) := 1, (4, 3) := 2], 3,
          map[0 := GONE, 1 := Actor(2, Probing, ProbeHeld(3)), 2 := Actor(4, Takeover, Opened(3, false))], map[0 := Empty, 1 := Record(h)], {0})
  }

  lemma StaleOpened(h: Holder)
    ensures Do(Do(Probed(h), Spawn(2, 4, Takeover)), Open(2, 3)) == Blocked(h)
  {
    var s := Do(Probed(h), Spawn(2, 4, Takeover));
    assert s.actors == map[0 := GONE, 1 := Actor(2, Probing, ProbeHeld(3)), 2 := Actor(4, Takeover, Start)];
  }

  lemma StaleLocked(h: Holder)
    ensures Do(Blocked(h), Flock(2, false)) == WithPlace(Blocked(h), 2, Refused(3, false))
  {
    assert Key(Blocked(h).actors[2]) == (4, 3);
  }

  lemma StaleClosed(h: Holder, s: State)
    requires s == WithPlace(Blocked(h), 2, Refused(3, false))
    ensures 0 in s.actors && s.actors[0] == GONE
    ensures 1 in s.actors && s.actors[1] == Actor(2, Probing, ProbeHeld(3))
    ensures StandsAt(s, 2, Refused(3, false)) && StandsAt(Do(s, Close(2)), 2, Contended(h))
  {
    assert Key(s.actors[2]) == (4, 3);
  }

  lemma StaleRefused(h: Holder)
    ensures Exec(Probed(h), [Spawn(2, 4, Takeover), Open(2, 3), Flock(2, false)])
      == WithPlace(Blocked(h), 2, Refused(3, false))
  {
    ExecThree(Probed(h), Spawn(2, 4, Takeover), Open(2, 3), Flock(2, false));
    StaleOpened(h);
    StaleLocked(h);
  }

  /** The holder's death frees the lock, and the next flock of anyone else succeeds. */
  lemma CrashFrees(steps: seq<Step>, a: nat, b: nat)
    requires var s := Exec(BOOT, steps);
      && a in s.actors && Owns(s.actors[a].at)
      && b in s.actors && s.actors[b].pid != s.actors[a].pid && s.actors[b].at.Opened?
    ensures var s := Exec(BOOT, steps);
      var t := Do(Do(s, Crash(s.actors[a].pid)), Flock(b, false));
      b in t.actors && Owns(t.actors[b].at)
  {
    var s := Exec(BOOT, steps);
    ReachedGood(steps);
    assert ActorGood(s, a) && ActorGood(s, b);
    var c := Do(s, Crash(s.actors[a].pid));
    assert c.locked == None;
    assert Key(c.actors[b]) in c.fds;
  }

  /** The calls on the lock object of actor `a`. */
  predicate CallOf(step: Step, a: nat) { !step.Spawn? && !step.Crash? && step.a == a }

  function Without(steps: seq<Step>, a: nat): seq<Step> {
    if steps == [] then []
    else if CallOf(steps[0], a) then Without(steps[1..], a)
    else [steps[0]] + Without(steps[1..], a)
  }

  /**
   * After a release, further calls on the same lock object, whenever they come and whoever
   * holds the lock or reuses the descriptor number by then, change nothing at all.
   */
  lemma {:induction false} RepeatedReleaseInert(s: State, steps: seq<Step>, a: nat)
    requires a in s.actors && s.actors[a].mode != Takeover && (s.actors[a].at == Free || s.actors[a].at == Dead)
    ensures Exec(s, steps) == Exec(s, Without(steps, a))
    decreases |steps|
  {
    if steps != [] {
      var t := Do(s, steps[0]);
      if CallOf(steps[0], a) {
        assert t == s;
        RepeatedReleaseInert(s, steps[1..], a);
      } else {
        assert a in t.actors && t.actors[a].mode == s.actors[a].mode;
        RepeatedReleaseInert(t, steps[1..], a);
        var rest := Without(steps[1..], a);
        assert ([steps[0]] + rest)[1..] == rest;
      }
    }
  }
}
