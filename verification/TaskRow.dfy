/** The persisted task row, the store it lives in, and the one path every transition takes. */
module TaskRow {
  import opened Common
  import opened Fsm

  /** A clock reading; 0 is the zero time, "not recorded". */
  type Time = nat

  datatype Phase = PlanPhase | WorkPhase | VerifyPhase

  /** What a caller supplies when a phase begins: backend, model and resume token. */
  datatype AgentSession = AgentSession(tool: string, model: string, resumeID: string)

  /** The planner / worker / verifier section of a row. */
  datatype Section = Section(agent: AgentSession, beginAt: Time, endAt: Time)

  datatype Task = Task(
    id: string, status: Status, summary: string, doneAt: Time,
    plan: Section, work: Section, verify: Section,
    worktree: string, linearIssue: string, pullRequestURL: string, agentLogPath: string)
  {
    function SectionOf(p: Phase): Section {
      match p case PlanPhase => plan case WorkPhase => work case VerifyPhase => verify
    }

    function EndAt(p: Phase): Time { SectionOf(p).endAt }

    function Session(p: Phase): string { SectionOf(p).agent.resumeID }

    function WithSection(p: Phase, s: Section): Task {
      match p
      case PlanPhase => this.(plan := s)
      case WorkPhase => this.(work := s)
      case VerifyPhase => this.(verify := s)
    }

    function WithEndAt(p: Phase, t: Time): Task { WithSection(p, SectionOf(p).(endAt := t)) }

    function WithSession(p: Phase, id: string): Task {
      WithSection(p, SectionOf(p).(agent := SectionOf(p).agent.(resumeID := id)))
    }
  }

  const NO_SECTION := Section(AgentSession("", "", ""), 0, 0)
  const NO_TASK := Task("", Unset, "", 0, NO_SECTION, NO_SECTION, NO_SECTION, "", "", "", "")

  /** A done time is recorded for a successful end only; `failed` keeps it unset. */
  function Stamped(t: Task, now: Time): Task {
    if t.status == Completed then t.(doneAt := now) else t
  }

  /** The sections of the other two phases are the same. */
  predicate OtherPhasesSame(p: Phase, t: Task, r: Task) {
    match p
    case PlanPhase => r.work == t.work && r.verify == t.verify
    case WorkPhase => r.plan == t.plan && r.verify == t.verify
    case VerifyPhase => r.plan == t.plan && r.work == t.work
  }

  /** The row after event `e`: unchanged when the edge is illegal. */
  function Applied(t: Task, e: Event, now: Time): Task {
    match Edge(t.status, e)
    case None => t
    case Some(to) => Stamped(t.(status := to), now)
  }

  /** An event moves the status along a legal edge and stamps the done time of a completion; it touches nothing else. */
  lemma AppliedStatus(t: Task, e: Event, now: Time)
    ensures Applied(t, e, now).status == if Legal(t.status, e) then Destination(e) else t.status
    ensures Applied(t, e, now).doneAt == if Legal(t.status, e) && Destination(e) == Completed then now else t.doneAt
    ensures Applied(t, e, now).(status := t.status, doneAt := t.doneAt) == t
  {
  }

  /** Rows the store refuses to write: no id, or a status outside the allowlist. */
  predicate Storable(t: Task) { t.id != "" && t.status != Unset }

  /** The store after an attempted write whose I/O outcome is `io`. */
  function Written(rows: map<string, Task>, t: Task, io: bool): map<string, Task> {
    if Storable(t) && io then rows[t.id := t] else rows
  }

  /** The store after the best-effort path: an illegal edge writes nothing. */
  function Kept(rows: map<string, Task>, from: Status, e: Event, r: Task, io: bool): map<string, Task> {
    if Legal(from, e) then Written(rows, r, io) else rows
  }

  /** What an observer is told: the edge and the row snapshot. */
  datatype Notice = Notice(transition: Transition, row: Task)

  /** The observers' stream after the best-effort path. */
  function Told(notices: seq<Notice>, from: Status, e: Event, r: Task): seq<Notice> {
    if Legal(from, e) then notices + [Notice(Transition(from, e, r.status), r)] else notices
  }

  /** Readings only need an order, so a reading is any number above the previous one. */
  class Clock {
    var now: Time

    constructor ()
      ensures now == 0
    {
      now := 0;
    }

    method Now() returns (t: Time)
      modifies this
      ensures old(now) < t == now
    {
      t :| now < t;
      now := t;
    }
  }

  class Store {
    var rows: map<string, Task>
    var notices: seq<Notice>

    constructor ()
      ensures rows == map[] && notices == []
    {
      rows := map[];
      notices := [];
    }

    /** `io` is the outcome of the directory / encode / rename work behind a write. */
    method PutTask(t: Task, io: bool) returns (ok: bool)
      modifies this`rows
      ensures ok == (t.id != "" && t.status != Unset && io)
      ensures rows == (if ok then old(rows)[t.id := t] else old(rows)) == Written(old(rows), t, io)
    {
      if t.id == "" || t.status == Unset {
        return false;
      }
      if io {
        rows := rows[t.id := t];
      }
      return io;
    }

    /** Reads fail when the row is absent or when `io` says the file could not be read. */
    method GetTask(id: string, io: bool) returns (t: Option<Task>)
      ensures t == if id in rows && io then Some(rows[id]) else None
    {
      if id in rows && io {
        return Some(rows[id]);
      }
      return None;
    }

    method Notify(n: Notice)
      modifies this`notices
      ensures notices == old(notices) + [n]
    {
      notices := notices + [n];
    }
  }

  datatype PersistError = IllegalTransition(from: Status, event: Event) | PutFailed

  /** The done stamp: reads the clock only on completion. */
  method StampTerminal(clock: Clock, t: Task) returns (r: Task)
    modifies clock
    ensures r == Stamped(t, clock.now)
    ensures if t.status == Completed then old(clock.now) < clock.now else clock.now == old(clock.now)
  {
    r := t;
    if t.status == Completed {
      var now := clock.Now();
      r := t.(doneAt := now);
    }
  }

  /**
   * Apply, mutate, write, notify. Observers hear of an edge only when the row they are
   * shown is the row on disk; an illegal edge touches neither the row nor the store; a
   * failed write still hands back the mutated row.
   */
  method ApplyAndPersist(s: Store, clock: Clock, t: Task, e: Event, io: bool)
    returns (r: Task, tr: Transition, err: Option<PersistError>)
    modifies s, clock
    ensures r == Applied(t, e, clock.now)
    ensures r.(status := t.status, doneAt := t.doneAt) == t
    ensures tr.from == t.status && tr.event == e
    ensures !Legal(t.status, e) ==>
      r == t && err == Some(IllegalTransition(t.status, e)) && s.rows == old(s.rows) && s.notices == old(s.notices)
    ensures Legal(t.status, e) ==>
      && tr.to == r.status == Destination(e)
      && s.rows == Written(old(s.rows), r, io)
      && (if t.id != "" && io
          then err == None && s.notices == old(s.notices) + [Notice(tr, r)] && r.id in s.rows && s.rows[r.id] == r
          else err == Some(PutFailed) && s.notices == old(s.notices))
    ensures if Legal(t.status, e) && Destination(e) == Completed
      then old(clock.now) < clock.now else clock.now == old(clock.now)
  {
    r := t;
    var to := Fsm.Apply(t.status, e);
    if to.None? {
      return t, Transition(t.status, e, Unset), Some(IllegalTransition(t.status, e));
    }
    tr := Transition(t.status, e, to.value);
    r := StampTerminal(clock, t.(status := to.value));
    var ok := s.PutTask(r, io);
    if !ok {
      return r, tr, Some(PutFailed);
    }
    s.Notify(Notice(tr, r));
    err := None;
  }

  /**
   * The best-effort twin: a failed write is swallowed and observers are told anyway, so the
   * caller learns of illegal edges only.
   */
  method ApplyAndPersistWarn(s: Store, clock: Clock, t: Task, e: Event, io: bool)
    returns (r: Task, tr: Transition, err: Option<PersistError>)
    modifies s, clock
    ensures r == Applied(t, e, clock.now)
    ensures tr.from == t.status && tr.event == e
    ensures if Legal(t.status, e)
      then tr.to == r.status == Destination(e) && err == None
      else r == t && err == Some(IllegalTransition(t.status, e))
    ensures s.rows == Kept(old(s.rows), t.status, e, r, io)
      == if Legal(t.status, e) && t.id != "" && io then old(s.rows)[t.id := r] else old(s.rows)
    ensures s.notices == Told(old(s.notices), t.status, e, r)
      == if Legal(t.status, e) then old(s.notices) + [Notice(tr, r)] else old(s.notices)
    ensures if Legal(t.status, e) && Destination(e) == Completed
      then old(clock.now) < clock.now else clock.now == old(clock.now)
  {
    r := t;
    var to := Fsm.Apply(t.status, e);
    if to.None? {
      return t, Transition(t.status, e, Unset), Some(IllegalTransition(t.status, e));
    }
    tr := Transition(t.status, e, to.value);
    r := StampTerminal(clock, t.(status := to.value));
    var _ := s.PutTask(r, io);
    s.Notify(Notice(tr, r));
    err := None;
  }
}
