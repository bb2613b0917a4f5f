/** A spawned child's output on its way through the pipe and the line formatter into the log. */
module DrainLog {
  import opened Common

  type Byte = bv8
  type Bytes = seq<Byte>

  const NEWLINE: Byte := 10

  // ---- Lines. ----

  /** The length of the first line, its newline included; all of `s` when there is none. */
  function LineLen(s: Bytes): (k: nat)
    ensures k <= |s| && (s != [] ==> k > 0)
    ensures forall i :: 0 <= i < k - 1 ==> s[i] != NEWLINE
    ensures k < |s| ==> s[k - 1] == NEWLINE
  {
    if s == [] then 0 else if s[0] == NEWLINE then 1 else 1 + LineLen(s[1..])
  }

  function Lines(s: Bytes): seq<Bytes>
    decreases |s|
  {
    if s == [] then [] else [s[..LineLen(s)]] + Lines(s[LineLen(s)..])
  }

  function Flat(lines: seq<Bytes>): Bytes {
    if lines == [] then [] else Flat(lines[..|lines| - 1]) + lines[|lines| - 1]
  }

  /** Not empty, and a newline only at the end. */
  predicate Slice(line: Bytes) { line != [] && forall i :: 0 <= i < |line| - 1 ==> line[i] != 10 }

  predicate Ended(line: Bytes) { line != [] && line[|line| - 1] == 10 }

  /** Slices, all but the last of them ending in a newline. */
  predicate Cut(lines: seq<Bytes>) {
    && (forall i :: 0 <= i < |lines| ==> Slice(lines[i]))
    && (forall i :: 0 <= i < |lines| - 1 ==> Ended(lines[i]))
  }

  lemma Regroup<T>(a: seq<T>, b: seq<T>, c: seq<T>)
    ensures a + b + c == a + (b + c)
  {
  }

  lemma {:induction false} FlatAppend(a: seq<Bytes>, b: seq<Bytes>)
    ensures Flat(a + b) == Flat(a) + Flat(b)
    decreases |b|
  {
    if b == [] {
      assert a + b == a;
    } else {
      var n := |b| - 1;
      assert (a + b)[..|a + b| - 1] == a + b[..n];
      FlatAppend(a, b[..n]);
      Regroup(Flat(a), Flat(b[..n]), b[n]);
    }
  }

  lemma FlatOne(line: Bytes)
    ensures Flat([line]) == line
  {
    var one := [line];
    assert one[..|one| - 1] == [];
    assert [] + line == line;
  }

  lemma FirstLine(line: Bytes, rest: Bytes)
    requires Slice(line) && (rest != [] ==> Ended(line))
    ensures LineLen(line + rest) == |line|
  {
    var s := line + rest;
    assert forall i :: 0 <= i < |line| ==> s[i] == line[i];
  }

  /** There is only one way to cut a byte string into such slices. */
  lemma {:induction false} CutIsLines(lines: seq<Bytes>)
    requires Cut(lines)
    ensures Lines(Flat(lines)) == lines
  {
    if lines != [] {
      var first, rest := lines[0], lines[1..];
      FlatAppend([first], rest);
      assert [first] + rest == lines;
      FlatOne(first);
      CutIsLines(rest);
      if rest == [] {
        assert first + Flat(rest) == first;
      }
      FirstLine(first, Flat(rest));
      assert (first + Flat(rest))[..|first|] == first && (first + Flat(rest))[|first|..] == Flat(rest);
    }
  }

  lemma FirstIsSlice(s: Bytes)
    requires s != []
    ensures var k := LineLen(s); Slice(s[..k]) && (s[k..] != [] ==> Ended(s[..k])) && s == s[..k] + s[k..]
  {
  }

  lemma CutBefore(first: Bytes, rest: seq<Bytes>)
    requires Slice(first) && Cut(rest) && (rest != [] ==> Ended(first))
    ensures Cut([first] + rest) && Flat([first] + rest) == first + Flat(rest)
  {
    FlatAppend([first], rest);
    FlatOne(first);
  }

  /** And every byte string can be cut so: its lines are such slices, and together they are all of it. */
  lemma {:induction false} LinesCut(s: Bytes)
    ensures Cut(Lines(s)) && Flat(Lines(s)) == s
    decreases |s|
  {
    if s != [] {
      var k := LineLen(s);
      FirstIsSlice(s);
      LinesCut(s[k..]);
      CutBefore(s[..k], Lines(s[k..]));
    }
  }

  // ---- The two goroutines, the child and the other writers of the log. ----

  type Format = Bytes -> Bytes

  /** One write attempt of the drain goroutine. */
  datatype Write = Write(out: Bytes, ok: bool)

  /** An entry of the log file: this child's formatted output, its exit marker, or someone else's line. */
  datatype Entry = Own(out: Bytes) | ExitMark | Theirs

  /**
   * `written` is all the child ever wrote, `pipe` what the kernel still holds, `buffer` what the drain
   * goroutine has read, `lines` what it has handed to the formatter, `writes` its attempts at the log.
   */
  datatype State = State(
    written: Bytes, pipe: Bytes, buffer: Bytes, lines: seq<Bytes>, writes: seq<Write>, log: seq<Entry>,
    writersOpen: bool, exited: bool, waited: bool, drained: bool, torn: bool, emitted: bool)

  const START := State([], [], [], [], [], [], true, false, false, false, false, false)

  datatype Step =
    | ChildWrites(bytes: Bytes) | WritersClose | ChildExits
    | DrainReads(n: nat) | DrainLine(ok: bool) | DrainEnd(ok: bool) | DrainFails(ok: bool)
    | ReapWaits | ReapEmits(ok: bool) | OthersLog

  /** `line` goes to the formatter and `rest` stays in the buffer. */
  function HandOver(s: State, fmt: Format, line: Bytes, rest: Bytes, ok: bool): State {
    var out := fmt(line);
    if out == [] then s.(buffer := rest, lines := s.lines + [line])
    else s.(buffer := rest, lines := s.lines + [line], writes := s.writes + [Write(out, ok)],
            log := if ok then s.log + [Own(out)] else s.log)
  }

  /** The last read: what is left in the buffer goes out as a line of its own, unless there is nothing left. */
  function LastLine(s: State, fmt: Format, ok: bool): State {
    (if s.buffer == [] then s else HandOver(s, fmt, s.buffer, [], ok)).(drained := true)
  }

  predicate Enabled(s: State, step: Step) {
    match step
    case ChildWrites(_) => s.writersOpen
    case WritersClose => s.writersOpen
    case ChildExits => !s.exited
    case DrainReads(n) => !s.drained && NEWLINE !in s.buffer && 0 < n <= |s.pipe|
    case DrainLine(_) => !s.drained && NEWLINE in s.buffer
    case DrainEnd(_) => !s.drained && NEWLINE !in s.buffer && s.pipe == [] && !s.writersOpen
    case DrainFails(_) => !s.drained && NEWLINE !in s.buffer
    case ReapWaits => s.exited && !s.waited
    case ReapEmits(_) => s.waited && s.drained && !s.emitted
    case OthersLog => true
  }

  function Do(s: State, fmt: Format, step: Step): State {
    if !Enabled(s, step) then s
    else match step
      case ChildWrites(bytes) => s.(written := s.written + bytes, pipe := s.pipe + bytes)
      case WritersClose => s.(writersOpen := false)
      case ChildExits => s.(exited := true)
      case DrainReads(n) => s.(buffer := s.buffer + s.pipe[..n], pipe := s.pipe[n..])
      case DrainLine(ok) =>
        var k := LineLen(s.buffer);
        HandOver(s, fmt, s.buffer[..k], s.buffer[k..], ok)
      case DrainEnd(ok) => LastLine(s, fmt, ok)
      case DrainFails(ok) => LastLine(s, fmt, ok).(torn := true)
      case ReapWaits => s.(waited := true)
      case ReapEmits(ok) => s.(emitted := true, log := if ok then s.log + [ExitMark] else s.log)
      case OthersLog => s.(log := s.log + [Theirs])
  }

  function Exec(s: State, fmt: Format, steps: seq<Step>): State
    decreases |steps|
  {
    if steps == [] then s else Exec(Do(s, fmt, steps[0]), fmt, steps[1..])
  }

  /** The formatter's non-empty outputs, in order. */
  function Outputs(fmt: Format, lines: seq<Bytes>): seq<Bytes> {
    if lines == [] then []
    else
      var n := |lines| - 1;
      Outputs(fmt, lines[..n]) + if fmt(lines[n]) == [] then [] else [fmt(lines[n])]
  }

  /** `outs` are the non-empty formatted lines, each once and in order; `at` says which lines they come from. */
  ghost predicate FormattedFrom(fmt: Format, lines: seq<Bytes>, outs: seq<Bytes>, at: seq<nat>) {
    && |at| == |outs| && (forall k, l :: 0 <= k < l < |at| ==> at[k] < at[l])
    && (forall k :: 0 <= k < |at| ==> at[k] < |lines| && outs[k] == fmt(lines[at[k]]))
    && (forall i: nat :: i in at <==> i < |lines| && fmt(lines[i]) != [])
  }

  lemma {:induction false} OutputsFrom(fmt: Format, lines: seq<Bytes>) returns (at: seq<nat>)
    ensures FormattedFrom(fmt, lines, Outputs(fmt, lines), at)
  {
    at := [];
    if lines != [] {
      var n := |lines| - 1;
      var before := OutputsFrom(fmt, lines[..n]);
      at := before + if fmt(lines[n]) == [] then [] else [n];
      forall i: nat
        ensures i in at <==> i < |lines| && fmt(lines[i]) != []
      {
        assert i in at <==> i in before || (i == n && fmt(lines[n]) != []);
      }
    }
  }

  function Attempted(writes: seq<Write>): seq<Bytes> {
    if writes == [] then [] else Attempted(writes[..|writes| - 1]) + [writes[|writes| - 1].out]
  }

  /** The writes that reached the file. */
  function Arrived(writes: seq<Write>): seq<Entry> {
    if writes == [] then []
    else
      var n := |writes| - 1;
      Arrived(writes[..n]) + if writes[n].ok then [Own(writes[n].out)] else []
  }

  /** The log without the other writers' lines. */
  function OwnLog(log: seq<Entry>): seq<Entry> {
    if log == [] then []
    else
      var n := |log| - 1;
      OwnLog(log[..n]) + if log[n].Theirs? then [] else [log[n]]
  }

  lemma OwnLogAppend(log: seq<Entry>, e: Entry)
    ensures OwnLog(log + [e]) == OwnLog(log) + if e.Theirs? then [] else [e]
  {
    assert (log + [e])[..|log|] == log;
  }

  /** Every byte is in exactly one place, in order. */
  ghost predicate Conserved(s: State) { Flat(s.lines) + s.buffer + s.pipe == s.written }

  ghost predicate Sliced(s: State) {
    && Cut(s.lines)
    && (!s.drained ==> forall i :: 0 <= i < |s.lines| ==> Ended(s.lines[i]))
    && (s.drained ==> s.buffer == [] && (s.torn || (s.pipe == [] && !s.writersOpen)))
  }

  ghost predicate Logged(s: State, fmt: Format) {
    && Attempted(s.writes) == Outputs(fmt, s.lines)
    && (s.emitted ==> s.waited && s.drained)
    && (s.waited ==> s.exited)
    && (OwnLog(s.log) == Arrived(s.writes) || (s.emitted && OwnLog(s.log) == Arrived(s.writes) + [ExitMark]))
  }

  ghost predicate Good(s: State, fmt: Format) { Conserved(s) && Sliced(s) && Logged(s, fmt) }

  lemma ConservedNext(lines: seq<Bytes>, buffer: Bytes, pipe: Bytes, line: Bytes, rest: Bytes)
    requires buffer == line + rest
    ensures Flat(lines + [line]) + rest + pipe == Flat(lines) + buffer + pipe
  {
    assert (lines + [line])[..|lines|] == lines;
    Regroup(Flat(lines), line, rest);
  }

  lemma CutNext(lines: seq<Bytes>, line: Bytes)
    requires Cut(lines) && Slice(line) && forall i :: 0 <= i < |lines| ==> Ended(lines[i])
    ensures Cut(lines + [line])
    ensures Ended(line) ==> forall i :: 0 <= i < |lines + [line]| ==> Ended((lines + [line])[i])
  {
  }

  lemma OutputsNext(fmt: Format, lines: seq<Bytes>, line: Bytes)
    ensures Outputs(fmt, lines + [line]) == Outputs(fmt, lines) + if fmt(line) == [] then [] else [fmt(line)]
  {
    assert (lines + [line])[..|lines|] == lines;
  }

  lemma WritesNext(writes: seq<Write>, w: Write)
    ensures Attempted(writes + [w]) == Attempted(writes) + [w.out]
    ensures Arrived(writes + [w]) == Arrived(writes) + if w.ok then [Own(w.out)] else []
  {
    assert (writes + [w])[..|writes|] == writes;
  }

  lemma HandOverLogs(s: State, fmt: Format, line: Bytes, rest: Bytes, ok: bool)
    requires Logged(s, fmt) && !s.emitted
    ensures Logged(HandOver(s, fmt, line, rest, ok), fmt)
  {
    OutputsNext(fmt, s.lines, line);
    if fmt(line) != [] {
      WritesNext(s.writes, Write(fmt(line), ok));
      OwnLogAppend(s.log, Own(fmt(line)));
    }
  }

  lemma NewlineEnds(s: Bytes)
    requires NEWLINE in s
    ensures s != [] && Slice(s[..LineLen(s)]) && Ended(s[..LineLen(s)])
  {
    var i :| 0 <= i < |s| && s[i] == NEWLINE;
    assert i >= LineLen(s) - 1;
  }

  /** In `t`, `line` has gone from the front of the buffer to the formatter. */
  ghost predicate Moved(s: State, line: Bytes, rest: Bytes, t: State) {
    && s.buffer == line + rest && t.buffer == rest && t.lines == s.lines + [line]
    && t.pipe == s.pipe && t.written == s.written && t.drained == s.drained
  }

  lemma MovedConserved(s: State, line: Bytes, rest: Bytes, t: State)
    requires Conserved(s) && Moved(s, line, rest, t)
    ensures Conserved(t)
  {
    ConservedNext(s.lines, s.buffer, s.pipe, line, rest);
  }

  lemma MovedSliced(s: State, line: Bytes, rest: Bytes, t: State)
    requires Sliced(s) && !s.drained && Slice(line) && Moved(s, line, rest, t)
    ensures Cut(t.lines)
    ensures Ended(line) ==> Sliced(t)
  {
    CutNext(s.lines, line);
  }

  lemma HandOverKeeps(s: State, fmt: Format, line: Bytes, rest: Bytes, ok: bool)
    requires Good(s, fmt) && !s.drained && Slice(line) && s.buffer == line + rest
    ensures var t := HandOver(s, fmt, line, rest, ok); Moved(s, line, rest, t) && Conserved(t) && Logged(t, fmt)
  {
    MovedConserved(s, line, rest, HandOver(s, fmt, line, rest, ok));
    HandOverLogs(s, fmt, line, rest, ok);
  }

  lemma LineKeeps(s: State, fmt: Format, ok: bool)
    requires Good(s, fmt) && !s.drained && NEWLINE in s.buffer
    ensures Good(HandOver(s, fmt, s.buffer[..LineLen(s.buffer)], s.buffer[LineLen(s.buffer)..], ok), fmt)
  {
    var line, rest := s.buffer[..LineLen(s.buffer)], s.buffer[LineLen(s.buffer)..];
    NewlineEnds(s.buffer);
    assert s.buffer == line + rest;
    HandOverKeeps(s, fmt, line, rest, ok);
    MovedSliced(s, line, rest, HandOver(s, fmt, line, rest, ok));
  }

  /** The last slice may lack a newline, so no other follows it. */
  lemma LastKeeps(s: State, fmt: Format, ok: bool)
    requires Good(s, fmt) && !s.drained && NEWLINE !in s.buffer
    ensures var t := LastLine(s, fmt, ok);
      Conserved(t) && Logged(t, fmt) && Cut(t.lines) && t.drained && t.buffer == [] && t.pipe == s.pipe
  {
    if s.buffer != [] {
      assert s.buffer == s.buffer + [];
      HandOverKeeps(s, fmt, s.buffer, [], ok);
      MovedSliced(s, s.buffer, [], HandOver(s, fmt, s.buffer, [], ok));
    }
  }

  lemma ChildKeeps(s: State, fmt: Format, bytes: Bytes)
    requires Good(s, fmt) && s.writersOpen
    ensures Good(s.(written := s.written + bytes, pipe := s.pipe + bytes), fmt)
  {
    Regroup(Flat(s.lines) + s.buffer, s.pipe, bytes);
  }

  lemma ReadKeeps(s: State, fmt: Format, n: nat)
    requires Good(s, fmt) && Enabled(s, DrainReads(n))
    ensures Good(s.(buffer := s.buffer + s.pipe[..n], pipe := s.pipe[n..]), fmt)
  {
    assert s.pipe == s.pipe[..n] + s.pipe[n..];
    Regroup(Flat(s.lines), s.buffer, s.pipe[..n]);
    Regroup(Flat(s.lines) + s.buffer, s.pipe[..n], s.pipe[n..]);
  }

  lemma EndKeeps(s: State, fmt: Format, step: Step)
    requires Good(s, fmt) && Enabled(s, step) && (step.DrainEnd? || step.DrainFails?)
    ensures Good(Do(s, fmt, step), fmt)
  {
    LastKeeps(s, fmt, step.ok);
  }

  lemma LogKeeps(s: State, fmt: Format, step: Step)
    requires Good(s, fmt) && Enabled(s, step) && (step.ReapEmits? || step.OthersLog?)
    ensures Good(Do(s, fmt, step), fmt)
  {
    OwnLogAppend(s.log, if step.OthersLog? then Theirs else ExitMark);
  }

  lemma StepKeeps(s: State, fmt: Format, step: Step)
    requires Good(s, fmt)
    ensures Good(Do(s, fmt, step), fmt)
  {
    if Enabled(s, step) {
      match step
      case ChildWrites(bytes) => ChildKeeps(s, fmt, bytes);
      case DrainReads(n) => ReadKeeps(s, fmt, n);
      case DrainLine(ok) => LineKeeps(s, fmt, ok);
      case DrainEnd(_) => EndKeeps(s, fmt, step);
      case DrainFails(_) => EndKeeps(s, fmt, step);
      case ReapEmits(_) => LogKeeps(s, fmt, step);
      case OthersLog => LogKeeps(s, fmt, step);
      case WritersClose =>
      case ChildExits =>
      case ReapWaits =>
    }
  }

  lemma {:induction false} RunKeeps(s: State, fmt: Format, steps: seq<Step>)
    requires Good(s, fmt)
    ensures Good(Exec(s, fmt, steps), fmt)
    decreases |steps|
  {
    if steps != [] {
      StepKeeps(s, fmt, steps[0]);
      RunKeeps(Do(s, fmt, steps[0]), fmt, steps[1..]);
    }
  }

  /**
   * In every interleaving the slices handed to the formatter partition the bytes taken from the pipe,
   * each with at most one newline, at its end; once the drain is through without a read error they are
   * the lines of all the child wrote.
   */
  lemma SlicesPartition(fmt: Format, steps: seq<Step>)
    ensures var s := Exec(START, fmt, steps);
      && Flat(s.lines) + s.buffer + s.pipe == s.written
      && (forall line :: line in s.lines ==> Slice(line))
      && s.lines == Lines(Flat(s.lines))
      && (s.drained && !s.torn ==> s.lines == Lines(s.written))
  {
    RunKeeps(START, fmt, steps);
    var s := Exec(START, fmt, steps);
    CutIsLines(s.lines);
    if s.drained && !s.torn {
      assert Flat(s.lines) + [] + [] == Flat(s.lines);
    }
  }

  /**
   * The exit marker is the child's last entry: it is only there once the child was waited for and the
   * drain is through, and what precedes it are the outputs that reached the file.
   */
  lemma ExitMarkLast(fmt: Format, steps: seq<Step>)
    ensures var s := Exec(START, fmt, steps);
      && Attempted(s.writes) == Outputs(fmt, s.lines)
      && (OwnLog(s.log) == Arrived(s.writes) || (s.emitted && OwnLog(s.log) == Arrived(s.writes) + [ExitMark]))
      && (s.emitted ==> s.exited && s.waited && s.drained)
  {
    RunKeeps(START, fmt, steps);
  }

  /** With every write going through: the formatted lines of all the child wrote, then the marker. */
  lemma FullLog(fmt: Format, steps: seq<Step>)
    requires forall i :: 0 <= i < |steps| ==> Lossless(steps[i])
    ensures var s := Exec(START, fmt, steps);
      s.emitted ==> OwnLog(s.log) == Owned(Outputs(fmt, Lines(s.written))) + [ExitMark]
  {
    RunKeeps(START, fmt, steps);
    LosslessRun(START, fmt, steps);
    SlicesPartition(fmt, steps);
    AllArrived(Exec(START, fmt, steps).writes);
  }

  predicate Lossless(step: Step) {
    match step
    case DrainLine(ok) => ok
    case DrainEnd(ok) => ok
    case DrainFails(_) => false
    case ReapEmits(ok) => ok
    case _ => true
  }

  function Owned(outs: seq<Bytes>): seq<Entry> {
    if outs == [] then [] else Owned(outs[..|outs| - 1]) + [Own(outs[|outs| - 1])]
  }

  ghost predicate NothingLost(s: State) {
    && !s.torn && (forall w :: w in s.writes ==> w.ok)
    && (s.emitted ==> OwnLog(s.log) == Arrived(s.writes) + [ExitMark])
  }

  lemma LosslessStep(s: State, fmt: Format, step: Step)
    requires Good(s, fmt) && NothingLost(s) && Lossless(step)
    ensures NothingLost(Do(s, fmt, step))
  {
    if Enabled(s, step) && step.OthersLog? {
      OwnLogAppend(s.log, Theirs);
    } else if Enabled(s, step) && step.ReapEmits? {
      OwnLogAppend(s.log, ExitMark);
    }
  }

  lemma {:induction false} LosslessRun(s: State, fmt: Format, steps: seq<Step>)
    requires Good(s, fmt) && NothingLost(s) && forall i :: 0 <= i < |steps| ==> Lossless(steps[i])
    ensures NothingLost(Exec(s, fmt, steps))
    decreases |steps|
  {
    if steps != [] {
      StepKeeps(s, fmt, steps[0]);
      LosslessStep(s, fmt, steps[0]);
      LosslessRun(Do(s, fmt, steps[0]), fmt, steps[1..]);
    }
  }

  lemma {:induction false} AllArrived(writes: seq<Write>)
    requires forall w :: w in writes ==> w.ok
    ensures Arrived(writes) == Owned(Attempted(writes))
  {
    if writes != [] {
      var n := |writes| - 1;
      AllArrived(writes[..n]);
      assert Attempted(writes)[..|Attempted(writes)| - 1] == Attempted(writes[..n]);
    }
  }

  // ---- The goroutines always get there. ----

  predicate Ours(step: Step) { step.DrainReads? || step.DrainLine? || step.DrainEnd? || step.ReapWaits? || step.ReapEmits? }

  /** The work left once the child is gone and the pipe has no writer. */
  function Left(s: State): nat {
    2 * |s.pipe| + |s.buffer|
    + (if s.drained then 0 else 1) + (if s.waited then 0 else 1) + (if s.emitted then 0 else 1)
  }

  /** Each of their steps leaves less to do. */
  lemma StepsShrink(s: State, fmt: Format, step: Step)
    requires Good(s, fmt) && Ours(step) && Enabled(s, step)
    ensures Left(Do(s, fmt, step)) < Left(s)
  {
  }

  /** A step one of the two goroutines can take. */
  function NextOf(s: State): (next: Step)
    requires s.exited && !s.writersOpen && !s.emitted
    ensures Ours(next) && Enabled(s, next)
  {
    if !s.waited then ReapWaits
    else if s.drained then ReapEmits(true)
    else if NEWLINE in s.buffer then DrainLine(true)
    else if s.pipe != [] then DrainReads(1)
    else DrainEnd(true)
  }

  /** Steps of the two goroutines, each of them possible when it is taken. */
  predicate Possible(s: State, fmt: Format, run: seq<Step>)
    decreases |run|
  {
    run == [] || (Ours(run[0]) && Enabled(s, run[0]) && Possible(Do(s, fmt, run[0]), fmt, run[1..]))
  }

  /** The child is gone and the pipe has no writer. */
  predicate ChildGone(s: State) { s.exited && !s.writersOpen }

  lemma {:induction false} PossibleShrinks(s: State, fmt: Format, run: seq<Step>)
    requires Good(s, fmt) && ChildGone(s) && Possible(s, fmt, run)
    ensures var t := Exec(s, fmt, run); |run| + Left(t) <= Left(s) && ChildGone(t) && Good(t, fmt)
    decreases |run|
  {
    if run != [] {
      StepKeeps(s, fmt, run[0]);
      StepsShrink(s, fmt, run[0]);
      PossibleShrinks(Do(s, fmt, run[0]), fmt, run[1..]);
    }
  }

  /**
   * Once the child is gone, whatever order the two goroutines run in, they take at most `Left` steps,
   * and where neither can go on the marker is written.
   */
  lemma ReapGetsThere(fmt: Format, steps: seq<Step>, run: seq<Step>)
    requires ChildGone(Exec(START, fmt, steps)) && Possible(Exec(START, fmt, steps), fmt, run)
    ensures |run| <= Left(Exec(START, fmt, steps))
    ensures var t := Exec(Exec(START, fmt, steps), fmt, run);
      (forall next :: Ours(next) ==> !Enabled(t, next)) ==> t.emitted
  {
    var s := Exec(START, fmt, steps);
    RunKeeps(START, fmt, steps);
    PossibleShrinks(s, fmt, run);
    var t := Exec(s, fmt, run);
    if !t.emitted {
      var next := NextOf(t);
      assert Ours(next) && Enabled(t, next);
    }
  }

  /** And they can always get there. */
  lemma {:induction false} ReachesMarker(s: State, fmt: Format) returns (run: seq<Step>)
    requires Good(s, fmt) && ChildGone(s)
    ensures Possible(s, fmt, run) && |run| <= Left(s) && Exec(s, fmt, run).emitted
    decreases Left(s)
  {
    run := [];
    if !s.emitted {
      var next := NextOf(s);
      StepKeeps(s, fmt, next);
      StepsShrink(s, fmt, next);
      var rest := ReachesMarker(Do(s, fmt, next), fmt);
      run := [next] + rest;
      assert run[1..] == rest;
    }
  }

  // ---- The drain loop by itself. ----

  class LogFile {
    var log: seq<Entry>

    constructor ()
      ensures log == []
    {
      log := [];
    }

    method Append(e: Entry, ok: bool)
      modifies this
      ensures log == if ok then old(log) + [e] else old(log)
    {
      if ok {
        log := log + [e];
      }
    }
  }

  /** What one line adds: its output, unless that is empty or the write fails. */
  function OneKept(fmt: Format, line: Bytes, ok: bool): seq<Entry> {
    if fmt(line) == [] || !ok then [] else [Own(fmt(line))]
  }

  /** What the loop adds for these lines when the i-th line's write succeeds as `io(i)` says. */
  function Kept(fmt: Format, lines: seq<Bytes>, io: nat -> bool): seq<Entry> {
    if lines == [] then []
    else
      var n := |lines| - 1;
      Kept(fmt, lines[..n], io) + OneKept(fmt, lines[n], io(n))
  }

  /** With every write going through, the loop adds what the goroutine's log ends with: the formatted lines. */
  lemma {:induction false} KeptIsOutputs(fmt: Format, lines: seq<Bytes>, io: nat -> bool)
    requires forall i :: 0 <= i < |lines| ==> io(i)
    ensures Kept(fmt, lines, io) == Owned(Outputs(fmt, lines))
  {
    if lines != [] {
      var n := |lines| - 1;
      var before, out := lines[..n], fmt(lines[n]);
      KeptIsOutputs(fmt, before, io);
      assert lines == before + [lines[n]];
      OutputsNext(fmt, before, lines[n]);
      KeptNext(fmt, before, lines[n], io);
      if out == [] {
        AddNone(Outputs(fmt, before));
        AddNone(Kept(fmt, before, io));
      } else {
        OwnedNext(Outputs(fmt, before), out);
      }
    }
  }

  lemma AddNone<T>(a: seq<T>)
    ensures a + [] == a
  {
  }

  lemma OwnedNext(outs: seq<Bytes>, out: Bytes)
    ensures Owned(outs + [out]) == Owned(outs) + [Own(out)]
  {
    assert (outs + [out])[..|outs|] == outs;
  }

  /** In general it adds the outputs whose writes went through, in order. */
  ghost predicate KeptFrom(fmt: Format, lines: seq<Bytes>, io: nat -> bool, log: seq<Entry>, at: seq<nat>) {
    && |at| == |log| && (forall k, l :: 0 <= k < l < |at| ==> at[k] < at[l])
    && (forall k :: 0 <= k < |at| ==> at[k] < |lines| && log[k] == Own(fmt(lines[at[k]])))
    && (forall i: nat :: i in at <==> i < |lines| && fmt(lines[i]) != [] && io(i))
  }

  lemma {:induction false} KeptOrigins(fmt: Format, lines: seq<Bytes>, io: nat -> bool) returns (at: seq<nat>)
    ensures KeptFrom(fmt, lines, io, Kept(fmt, lines, io), at)
  {
    at := [];
    if lines != [] {
      var n := |lines| - 1;
      var before := KeptOrigins(fmt, lines[..n], io);
      at := before + if fmt(lines[n]) == [] || !io(n) then [] else [n];
      forall i: nat
        ensures i in at <==> i < |lines| && fmt(lines[i]) != [] && io(i)
      {
        assert i in at <==> i in before || (i == n && fmt(lines[n]) != [] && io(n));
      }
    }
  }

  function Formatter(lineFmt: Option<Format>): Format {
    if lineFmt.Some? then lineFmt.value else (line: Bytes) => line
  }

  lemma KeptNext(fmt: Format, lines: seq<Bytes>, line: Bytes, io: nat -> bool)
    ensures Kept(fmt, lines + [line], io) == Kept(fmt, lines, io) + OneKept(fmt, line, io(|lines|))
  {
    assert (lines + [line])[..|lines|] == lines;
  }

  /** Reading a stream to its end; no formatter means the lines go through unchanged. */
  method DrainFormatted(file: LogFile, stream: Bytes, lineFmt: Option<Format>, io: nat -> bool)
    modifies file
    ensures file.log == old(file.log) + Kept(Formatter(lineFmt), Lines(stream), io)
  {
    ghost var fmt, done, added := Formatter(lineFmt), [], [];
    var rest, i := stream, 0;
    while true
      invariant i == |done| && done + Lines(rest) == Lines(stream)
      invariant added == Kept(fmt, done, io) && file.log == old(file.log) + added
      decreases |rest|
    {
      var line := rest[..LineLen(rest)];
      var eof := line == [] || line[|line| - 1] != NEWLINE;
      if |line| > 0 {
        ghost var more := OneKept(fmt, line, io(i));
        KeptNext(fmt, done, line, io);
        Regroup(old(file.log), added, more);
        DrainOne(file, line, lineFmt, io(i));
        LinesNext(done, rest);
        done, i, added := done + [line], i + 1, added + more;
      }
      rest := rest[|line|..];
      if eof {
        LinesEnd(done, rest);
        return;
      }
    }
  }

  lemma LinesNext(done: seq<Bytes>, rest: Bytes)
    requires rest != []
    ensures done + Lines(rest) == done + [rest[..LineLen(rest)]] + Lines(rest[LineLen(rest)..])
  {
  }

  lemma LinesEnd(done: seq<Bytes>, rest: Bytes)
    requires rest == []
    ensures done + Lines(rest) == done
  {
  }

  /** Formatting and appending one line. */
  method DrainOne(file: LogFile, line: Bytes, lineFmt: Option<Format>, ok: bool)
    modifies file
    ensures file.log == old(file.log) + OneKept(Formatter(lineFmt), line, ok)
    ensures var out := if lineFmt.Some? then lineFmt.value(line) else line;
      file.log == if out == [] || !ok then old(file.log) else old(file.log) + [Own(out)]
  {
    var out := line;
    if lineFmt.Some? {
      out := lineFmt.value(line);
    }
    if |out| > 0 {
      file.Append(Own(out), ok);
    }
  }

  /** The reaper, after the child was waited for and the drain is through. */
  method ReapFormatted(file: LogFile, ok: bool)
    modifies file
    ensures file.log == if ok then old(file.log) + [ExitMark] else old(file.log)
  {
    file.Append(ExitMark, ok);
  }

  /** The drain, then, released by its closing channel, the reaper: everything one child adds to the log. */
  method DrainAndReap(file: LogFile, stream: Bytes, lineFmt: Option<Format>, io: nat -> bool, ok: bool)
    modifies file
    ensures (forall i: nat :: io(i)) && ok ==>
      file.log == old(file.log) + (Owned(Outputs(Formatter(lineFmt), Lines(stream))) + [ExitMark])
    ensures file.log == old(file.log) + Kept(Formatter(lineFmt), Lines(stream), io) + if ok then [ExitMark] else []
  {
    DrainFormatted(file, stream, lineFmt, io);
    ReapFormatted(file, ok);
    if forall i: nat :: io(i) {
      KeptIsOutputs(Formatter(lineFmt), Lines(stream), io);
      Regroup(old(file.log), Kept(Formatter(lineFmt), Lines(stream), io), [ExitMark]);
    }
  }
}
