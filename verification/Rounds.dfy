/** The per-task code-review round directories and their allocator. */
module Rounds {
  import opened Common
  import CodeReview
  import StableSort

  // ---- Numbers in directory names. ----

  const MAX_INT: int := 0x7FFF_FFFF_FFFF_FFFF
  const MIN_INT: int := -0x8000_0000_0000_0000

  predicate IsDigit(c: char) { '0' <= c <= '9' }

  predicate AllDigits(s: string) { s != "" && forall i :: 0 <= i < |s| ==> IsDigit(s[i]) }

  function DigitChar(d: nat): char
    requires d < 10
  {
    ('0' as int + d) as char
  }

  function DigitValue(c: char): (d: nat)
    requires IsDigit(c)
    ensures d < 10
  {
    c as int - '0' as int
  }

  /** Decimal printing of a natural number. */
  function Digits(n: nat): (s: string)
    ensures AllDigits(s)
  {
    if n < 10 then [DigitChar(n)] else Digits(n / 10) + [DigitChar(n % 10)]
  }

  function Value(s: string): nat
    requires AllDigits(s)
  {
    var n := |s| - 1;
    DigitValue(s[n]) + if n == 0 then 0 else 10 * Value(s[..n])
  }

  function Itoa(n: int): string { if n < 0 then "-" + Digits(-n) else Digits(n) }

  /** Decimal reading: an optional sign, at least one digit, within 64 bits. */
  function Atoi(s: string): Option<int> {
    var unsigned := if s != "" && (s[0] == '+' || s[0] == '-') then s[1..] else s;
    if !AllDigits(unsigned) then None
    else
      var v: int := if s[0] == '-' then 0 - Value(unsigned) else Value(unsigned);
      if MIN_INT <= v <= MAX_INT then Some(v) else None
  }

  lemma {:induction false} ValueOfDigits(n: nat)
    ensures Value(Digits(n)) == n
  {
    if n >= 10 {
      ValueOfDigits(n / 10);
      assert Digits(n)[..|Digits(n)| - 1] == Digits(n / 10);
    }
  }

  lemma {:induction false} DigitsOfValue(s: string)
    requires AllDigits(s)
    ensures Digits(Value(s)) == s <==> s == "0" || s[0] != '0'
    ensures s[0] != '0' ==> Value(s) > 0
  {
    var n := |s| - 1;
    if n > 0 {
      DigitsOfValue(s[..n]);
      var v := Value(s[..n]);
      assert s == s[..n] + [s[n]];
      assert Value(s) / 10 == v && Value(s) % 10 == DigitValue(s[n]);
      LeadingDigit(Value(s));
    }
  }

  /** A printed number starts with zero only when it is zero. */
  lemma {:induction false} LeadingDigit(n: nat)
    ensures Digits(n)[0] == '0' <==> n == 0
  {
    if n >= 10 {
      LeadingDigit(n / 10);
    }
  }

  const PREFIX := "round-"

  function RoundName(n: int): string { PREFIX + Itoa(n) }

  function ParseRoundDir(name: string): Option<int> {
    if !(PREFIX <= name) then None
    else match Atoi(name[|PREFIX|..])
      case None => None
      case Some(n) => if n <= 0 then None else Some(n)
  }

  /** The printed name of a positive 64-bit number is read back as that number. */
  lemma ParsePrinted(n: int)
    requires 1 <= n <= MAX_INT
    ensures ParseRoundDir(RoundName(n)) == Some(n)
  {
    ValueOfDigits(n);
    assert RoundName(n)[|PREFIX|..] == Digits(n);
  }

  /**
   * The names that read as round `n`: the prefix, perhaps a plus sign, and decimal digits worth `n`,
   * which is positive and fits 64 bits.
   */
  lemma ParsedExactly(name: string, n: int)
    ensures ParseRoundDir(name) == Some(n) <==>
      && 1 <= n <= 0x7FFF_FFFF_FFFF_FFFF
      && exists digits: string :: AllDigits(digits) && Value(digits) == n && NamesRound(name, digits)
  {
    if PREFIX <= name {
      var rest := name[|PREFIX|..];
      assert name == "round-" + rest;
      if ParseRoundDir(name) == Some(n) {
        var digits := if rest[0] == '+' then rest[1..] else rest;
        assert rest == if rest[0] == '+' then "+" + digits else digits;
        assert NamesRound(name, digits);
      }
    }
    forall digits: string | AllDigits(digits) && Value(digits) == n && NamesRound(name, digits)
      ensures 1 <= n <= MAX_INT ==> ParseRoundDir(name) == Some(n)
    {
      NamedRest(name, digits);
    }
  }

  predicate NamesRound(name: string, digits: string) { name == "round-" + digits || name == "round-+" + digits }

  lemma NamedRest(name: string, digits: string)
    requires AllDigits(digits) && NamesRound(name, digits)
    ensures PREFIX <= name && (name[|PREFIX|..] == digits || name[|PREFIX|..] == "+" + digits)
    ensures 1 <= Value(digits) <= MAX_INT ==> ParseRoundDir(name) == Some(Value(digits))
  {
    if name == "round-" + digits {
      assert name[|PREFIX|..] == digits;
      assert digits[0] != '+' && digits[0] != '-';
    } else {
      assert name == "round-" + ("+" + digits);
      assert name[|PREFIX|..] == "+" + digits;
      assert ("+" + digits)[1..] == digits;
    }
  }

  /** A name that reads as `n` is the printed one unless it has a plus sign or leading zeros. */
  lemma PrintedIffCanonical(name: string, n: int)
    requires ParseRoundDir(name) == Some(n)
    ensures |name| > |PREFIX|
    ensures name == RoundName(n) <==> '1' <= name[|PREFIX|] <= '9'
  {
    var s := name[|PREFIX|..];
    assert name == PREFIX + s;
    assert s[0] == name[|PREFIX|];
    if AllDigits(s) {
      DigitsOfValue(s);
      assert RoundName(n)[|PREFIX|..] == Digits(n);
    } else {
      assert RoundName(n)[|PREFIX|] == Digits(n)[0];
    }
  }

  // ---- The directory tree. ----

  /** An entry under code-reviews/; a directory shows the sizes of its plan and clarification. */
  datatype Entry = Dir(files: CodeReview.Artifacts) | File

  type Tree = map<string, Entry>

  const EMPTY_DIR := Dir(CodeReview.Artifacts(None, None))

  predicate IsDir(tree: Tree, name: string) { name in tree && tree[name].Dir? }

  predicate RoundIn(tree: Tree, name: string, n: int) { IsDir(tree, name) && ParseRoundDir(name) == Some(n) }

  /** `n` is the number of a listed round. */
  ghost predicate Listed(tree: Tree, n: int) { exists name :: RoundIn(tree, name, n) }

  ghost predicate IsLatest(tree: Tree, n: int) { Listed(tree, n) && forall m :: Listed(tree, m) ==> m <= n }

  /** clarification.md exists in the directory printed for `n`, whatever its size. */
  predicate Clarified(tree: Tree, n: int) {
    IsDir(tree, RoundName(n)) && tree[RoundName(n)].files.clarification.Some?
  }

  /** The next number, in 64-bit arithmetic. */
  function Succ(n: int): int { if n == MAX_INT then MIN_INT else n + 1 }

  ghost predicate IsNext(tree: Tree, n: int) {
    if exists m :: IsLatest(tree, m) then exists m :: IsLatest(tree, m) && n == Succ(m) else n == 1
  }

  datatype Outcome = Resumed(n: int) | Allocated(n: int) | Failed

  /** The tree after creating the directory of round `n`. */
  function Made(tree: Tree, n: int): Tree {
    if RoundName(n) in tree then tree else tree[RoundName(n) := EMPTY_DIR]
  }

  /** One call: `readable` and `io` say whether listing and creating the directory work. */
  ghost predicate Resolves(tree: Tree, readable: bool, io: bool, out: Outcome, after: Tree) {
    match out
    case Resumed(n) => readable && IsLatest(tree, n) && Clarified(tree, n) && after == tree
    case Allocated(n) =>
      && readable && io && IsNext(tree, n) && (RoundName(n) in tree ==> tree[RoundName(n)].Dir?)
      && (forall m :: IsLatest(tree, m) ==> !Clarified(tree, m)) && after == Made(tree, n)
    case Failed =>
      && after == tree
      && (readable ==>
        && (forall m :: IsLatest(tree, m) ==> !Clarified(tree, m))
        && (io ==> exists n :: IsNext(tree, n) && RoundName(n) in tree && tree[RoundName(n)].File?))
  }

  predicate Sorted(s: seq<int>) { forall i, j :: 0 <= i < j < |s| ==> s[i] <= s[j] }

  function CompareInts(a: int, b: int): int { a - b }

  /** Ascending order, the entries unchanged. */
  method SortInts(s: seq<int>) returns (out: seq<int>)
    ensures Sorted(out) && multiset(out) == multiset(s)
  {
    var a := new int[|s|](i requires 0 <= i < |s| => s[i]);
    assert a[..] == s;
    StableSort.SortStable(a, CompareInts);
    out := a[..];
    IntsAreOrdered();
    StableSort.SortedIsOrdered(CompareInts, s);
    assert forall i, j :: 0 <= i < j < |out| ==> CompareInts(out[i], out[j]) <= 0;
  }

  lemma IntsAreOrdered()
    ensures StableSort.IsOrder(CompareInts)
  {
  }

  method ListRoundNumbers(tree: Tree) returns (out: seq<int>)
    ensures Sorted(out) && forall n :: n in out <==> Listed(tree, n)
  {
    var found: seq<int> := [];
    var names := tree.Keys;
    while names != {}
      invariant names <= tree.Keys
      invariant forall n :: n in found ==> Listed(tree, n)
      invariant forall name, n :: RoundIn(tree, name, n) && name !in names ==> n in found
    {
      var name :| name in names;
      names := names - {name};
      if !tree[name].Dir? {
        continue;
      }
      var n := ParseRoundDir(name);
      if n == None {
        continue;
      }
      assert RoundIn(tree, name, n.value);
      found := found + [n.value];
    }
    out := SortInts(found);
    forall n ensures n in out <==> Listed(tree, n) {
      assert n in out <==> n in multiset(out);
      assert n in found <==> n in multiset(found);
    }
  }

  class Directory {
    var tree: Tree

    constructor (tree: Tree)
      ensures this.tree == tree
    {
      this.tree := tree;
    }

    method ResolveOrAllocate(readable: bool, io: bool) returns (out: Outcome)
      modifies this
      ensures Resolves(old(tree), readable, io, out, tree)
      ensures forall name :: name in old(tree) ==> name in tree && tree[name] == old(tree)[name]
      ensures out.Resumed? ==>
        && tree == old(tree) && IsDir(tree, "round-" + Itoa(out.n))
        && tree["round-" + Itoa(out.n)].files.clarification.Some?
      ensures out.Allocated? ==>
        IsDir(tree, "round-" + Itoa(out.n)) && tree.Keys == old(tree).Keys + {"round-" + Itoa(out.n)}
    {
      if !readable {
        return Failed;
      }
      var rounds := ListRoundNumbers(tree);
      var next := 1;
      if |rounds| > 0 {
        var latest := rounds[|rounds| - 1];
        LastIsLatest(tree, rounds);
        if IsDir(tree, RoundName(latest)) && tree[RoundName(latest)].files.clarification.Some? {
          return Resumed(latest);
        }
        next := Succ(latest);
      } else {
        assert forall m :: !Listed(tree, m);
      }
      assert IsNext(tree, next);
      if !io || (RoundName(next) in tree && tree[RoundName(next)].File?) {
        return Failed;
      }
      tree := Made(tree, next);
      return Allocated(next);
    }
  }

  lemma LastIsLatest(tree: Tree, rounds: seq<int>)
    requires Sorted(rounds) && rounds != [] && forall n :: n in rounds <==> Listed(tree, n)
    ensures forall m :: IsLatest(tree, m) <==> m == rounds[|rounds| - 1]
  {
    var last := rounds[|rounds| - 1];
    forall m | Listed(tree, m) ensures m <= last {
      assert m in rounds;
    }
    assert last in rounds;
  }

  // ---- What follows for the numbers handed out. ----

  lemma LatestUnique(tree: Tree, m: int, n: int)
    requires IsLatest(tree, m) && IsLatest(tree, n)
    ensures m == n
  {
  }

  /** The tree and the two I/O outcomes determine what a call returns and leaves. */
  lemma ResolvesUnique(tree: Tree, readable: bool, io: bool, out: Outcome, after: Tree, out': Outcome, after': Tree)
    requires Resolves(tree, readable, io, out, after) && Resolves(tree, readable, io, out', after')
    ensures out == out' && after == after'
  {
    if out.Allocated? || out'.Allocated? {
      NextUnique(tree);
    }
    if out.Resumed? && out'.Resumed? {
      LatestUnique(tree, out.n, out'.n);
    }
  }

  lemma NextUnique(tree: Tree)
    ensures forall m, n :: IsNext(tree, m) && IsNext(tree, n) ==> m == n
  {
    forall m, n | IsNext(tree, m) && IsNext(tree, n) ensures m == n {
      if exists l :: IsLatest(tree, l) {
        var k :| IsLatest(tree, k) && m == Succ(k);
        var l :| IsLatest(tree, l) && n == Succ(l);
        LatestUnique(tree, k, l);
      }
    }
  }

  ghost predicate InRange(tree: Tree) { !Listed(tree, MAX_INT) }

  /**
   * A fresh round's directory did not exist and its number exceeds every listed one,
   * exactly when the largest 64-bit number is not among them.
   */
  lemma AllocatedIsNew(tree: Tree, readable: bool, io: bool, n: int, after: Tree)
    requires Resolves(tree, readable, io, Allocated(n), after)
    ensures InRange(tree) <==> n >= 1 && RoundName(n) !in tree && forall m :: Listed(tree, m) ==> m < n
    ensures InRange(tree) ==> IsLatest(after, n) && IsDir(after, RoundName(n))
  {
    if InRange(tree) {
      NextIsAbove(tree, n);
      ParsePrinted(n);
      if RoundName(n) in tree {
        assert RoundIn(tree, RoundName(n), n);
        assert Listed(tree, n);
      }
      AddedIsLatest(tree, RoundName(n), n);
    } else {
      MaxIsLatest(tree);
      assert IsLatest(tree, MAX_INT);
    }
  }

  lemma NextIsAbove(tree: Tree, n: int)
    requires InRange(tree) && IsNext(tree, n)
    ensures 1 <= n <= MAX_INT && forall m :: Listed(tree, m) ==> m < n
  {
    if exists m :: IsLatest(tree, m) {
      var m :| IsLatest(tree, m) && n == Succ(m);
      ListedRange(tree, m);
    } else {
      NoneListed(tree);
    }
  }

  lemma AddedIsLatest(tree: Tree, name: string, n: int)
    requires name !in tree && ParseRoundDir(name) == Some(n) && forall m :: Listed(tree, m) ==> m < n
    ensures IsLatest(tree[name := EMPTY_DIR], n)
  {
    var after := tree[name := EMPTY_DIR];
    assert RoundIn(after, name, n);
    forall m | Listed(after, m) ensures m <= n {
      var other :| RoundIn(after, other, m);
      if other != name {
        assert RoundIn(tree, other, m);
        assert Listed(tree, m);
      } else {
        assert m == n;
      }
    }
  }

  lemma ListedRange(tree: Tree, n: int)
    requires Listed(tree, n)
    ensures 1 <= n <= MAX_INT
  {
    var name :| RoundIn(tree, name, n);
  }

  lemma MaxIsLatest(tree: Tree)
    requires Listed(tree, MAX_INT)
    ensures forall m :: IsLatest(tree, m) <==> m == MAX_INT
  {
    forall m | Listed(tree, m) ensures m <= MAX_INT {
      ListedRange(tree, m);
    }
  }

  /** A tree that lists some round has a latest one. */
  lemma NoneListed(tree: Tree)
    ensures (exists m :: IsLatest(tree, m)) <==> exists n :: Listed(tree, n)
  {
    if n :| Listed(tree, n) {
      LatestAbove(tree, n);
    }
  }

  lemma {:induction false} LatestAbove(tree: Tree, n: int)
    requires Listed(tree, n)
    ensures exists m :: IsLatest(tree, m)
    decreases MAX_INT - n
  {
    ListedRange(tree, n);
    if m :| Listed(tree, m) && m > n {
      ListedRange(tree, m);
      LatestAbove(tree, m);
    } else {
      assert IsLatest(tree, n);
    }
  }

  /** A call, or anything else happening to the tree in between. */
  datatype Step = Call(readable: bool, io: bool, out: Outcome) | Elsewhere

  /** Directories are never deleted; everything else may change between calls. */
  ghost predicate Follows(before: Tree, step: Step, after: Tree) {
    match step
    case Call(readable, io, out) => Resolves(before, readable, io, out, after)
    case Elsewhere => forall name :: IsDir(before, name) ==> IsDir(after, name)
  }

  ghost predicate History(trees: seq<Tree>, steps: seq<Step>) {
    && |trees| == |steps| + 1
    && forall i :: 0 <= i < |steps| ==> Follows(trees[i], steps[i], trees[i + 1])
  }

  lemma StepKeepsRounds(before: Tree, step: Step, after: Tree, n: int)
    requires Follows(before, step, after) && Listed(before, n)
    ensures Listed(after, n)
  {
    var name :| RoundIn(before, name, n);
    assert RoundIn(after, name, n);
  }

  lemma HistoryStepKeeps(trees: seq<Tree>, steps: seq<Step>, i: nat, n: int)
    requires History(trees, steps) && i < |steps| && Listed(trees[i], n)
    ensures Listed(trees[i + 1], n)
  {
    StepKeepsRounds(trees[i], steps[i], trees[i + 1], n);
  }

  lemma {:induction false} HistoryKeepsRounds(trees: seq<Tree>, steps: seq<Step>, i: nat, j: nat, n: int)
    requires History(trees, steps) && i <= j < |trees| && Listed(trees[i], n)
    ensures Listed(trees[j], n)
    decreases j - i
  {
    if i < j {
      HistoryStepKeeps(trees, steps, i, n);
      HistoryKeepsRounds(trees, steps, i + 1, j, n);
    }
  }

  lemma ReturnedIsListed(before: Tree, step: Step, after: Tree)
    requires Follows(before, step, after) && step.Call? && !step.out.Failed? && InRange(before)
    ensures Listed(after, step.out.n) && forall m :: Listed(before, m) ==> m <= step.out.n
    ensures step.out.Allocated? ==> forall m :: Listed(before, m) ==> m < step.out.n
  {
    if step.out.Allocated? {
      AllocatedIsNew(before, step.readable, step.io, step.out.n, after);
    }
  }

  /** Over any history the numbers returned never decrease, and a fresh one exceeds all before it. */
  lemma NumbersNeverDecrease(trees: seq<Tree>, steps: seq<Step>, i: nat, j: nat)
    requires History(trees, steps) && forall t <- trees :: InRange(t)
    requires i < j < |steps| && steps[i].Call? && steps[j].Call? && !steps[i].out.Failed? && !steps[j].out.Failed?
    ensures steps[i].out.n <= steps[j].out.n
    ensures steps[j].out.Allocated? ==> steps[i].out.n < steps[j].out.n
  {
    ReturnedIsListed(trees[i], steps[i], trees[i + 1]);
    HistoryKeepsRounds(trees, steps, i + 1, j, steps[i].out.n);
    ReturnedIsListed(trees[j], steps[j], trees[j + 1]);
  }

  /**
   * After a call returned round `n` and that round's files were rewritten, the next call resumes it
   * exactly when clarification.md is there; otherwise it moves on to the next number.
   */
  lemma NextCall(before: Tree, step: Step, tree: Tree, files: CodeReview.Artifacts, io: bool, out: Outcome, after: Tree)
    requires Follows(before, step, tree) && step.Call? && !step.out.Failed? && InRange(before)
    requires Resolves(tree[RoundName(step.out.n) := Dir(files)], true, io, out, after)
    ensures out == Resumed(step.out.n) <==> files.clarification.Some?
    ensures files.clarification.None? && !out.Failed? ==> out == Allocated(Succ(step.out.n))
  {
    var n := step.out.n;
    var now := tree[RoundName(n) := Dir(files)];
    LatestAfterCall(before, step, tree);
    RewrittenListsSame(tree, RoundName(n), files);
    assert IsLatest(now, n);
    assert forall m :: IsLatest(now, m) ==> m == n;
  }

  lemma RewrittenListsSame(tree: Tree, name: string, files: CodeReview.Artifacts)
    requires IsDir(tree, name)
    ensures forall m :: IsLatest(tree[name := Dir(files)], m) <==> IsLatest(tree, m)
  {
    var now := tree[name := Dir(files)];
    forall m ensures Listed(now, m) <==> Listed(tree, m) {
      if other :| RoundIn(now, other, m) {
        assert RoundIn(tree, other, m);
      }
      if other :| RoundIn(tree, other, m) {
        assert RoundIn(now, other, m);
      }
    }
  }

  lemma LatestAfterCall(before: Tree, step: Step, tree: Tree)
    requires Follows(before, step, tree) && step.Call? && !step.out.Failed? && InRange(before)
    ensures IsLatest(tree, step.out.n) && IsDir(tree, RoundName(step.out.n))
  {
    if step.out.Allocated? {
      AllocatedIsNew(before, step.readable, step.io, step.out.n, tree);
    }
  }

  lemma FirstNames()
    ensures RoundName(1) == "round-1" && RoundName(2) == "round-2"
  {
    assert Digits(1) == "1" && Digits(2) == "2";
  }

  lemma FirstAllocated(tree: Tree, out: Outcome, after: Tree)
    requires (forall n :: !Listed(tree, n)) && RoundName(1) !in tree && Resolves(tree, true, true, out, after)
    ensures out == Allocated(1) && after == tree[RoundName(1) := EMPTY_DIR]
  {
    NoneListed(tree);
    assert IsNext(tree, 1);
    NextUnique(tree);
  }

  lemma SecondNotFailed(now: Tree, next: Outcome, last: Tree)
    requires IsLatest(now, 1) && RoundName(2) !in now && Resolves(now, true, true, next, last)
    ensures !next.Failed?
  {
    assert IsNext(now, 2);
    NextUnique(now);
  }

  /** The first round of a task is round-1, and while its clarification.md is there it is the one returned. */
  lemma FirstRound(tree: Tree, out: Outcome, after: Tree, files: CodeReview.Artifacts, next: Outcome, last: Tree)
    requires (forall n :: !Listed(tree, n)) && "round-1" !in tree && "round-2" !in tree && Resolves(tree, true, true, out, after)
    requires Resolves(after["round-1" := Dir(files)], true, true, next, last)
    ensures out == Allocated(1) && after == tree["round-1" := Dir(CodeReview.Artifacts(None, None))]
    ensures next == if files.clarification.Some? then Resumed(1) else Allocated(2)
  {
    FirstNames();
    FirstAllocated(tree, out, after);
    var call := Call(true, true, out);
    NextCall(tree, call, after, files, true, next, last);
    LatestAfterCall(tree, call, after);
    RewrittenListsSame(after, "round-1", files);
    SecondNotFailed(after["round-1" := Dir(files)], next, last);
  }

  /** A round the validator accepted as clarification_needed is the one the next call resumes. */
  lemma ClarificationRoundResumed(before: Tree, step: Step, tree: Tree, files: CodeReview.Artifacts,
        f: CodeReview.ReviewFile, original: set<string>, io: bool, out: Outcome, after: Tree)
    requires Follows(before, step, tree) && step.Call? && !step.out.Failed? && InRange(before)
    requires CodeReview.RoundComplete(f, original, files) && f.decision == CodeReview.CLARIFICATION_NEEDED
    requires Resolves(tree[RoundName(step.out.n) := Dir(files)], true, io, out, after)
    ensures out == Resumed(step.out.n)
  {
    NextCall(before, step, tree, files, io, out, after);
  }

  /** With the largest number listed the next round gets the smallest one, below what is there. */
  lemma LargestListed()
    ensures var tree: Tree := map[RoundName(MAX_INT) := EMPTY_DIR];
      && IsLatest(tree, MAX_INT)
      && Resolves(tree, true, true, Allocated(MIN_INT), Made(tree, MIN_INT))
  {
    var tree: Tree := map[RoundName(MAX_INT) := EMPTY_DIR];
    ParsePrinted(MAX_INT);
    assert RoundIn(tree, RoundName(MAX_INT), MAX_INT);
    MaxIsLatest(tree);
    assert IsLatest(tree, MAX_INT);
  }

  /** A clarification in a directory whose name is not the printed one is not seen. */
  lemma ZeroPaddedNotResumed()
    ensures
      var tree: Tree := map["round-007" := Dir(CodeReview.Artifacts(None, Some(1)))];
      IsLatest(tree, 7) && !Clarified(tree, 7) && IsNext(tree, 8)
  {
    var tree: Tree := map["round-007" := Dir(CodeReview.Artifacts(None, Some(1)))];
    assert Value("0") == 0 && "00"[..1] == "0" && Value("00") == 0 && "007"[..2] == "00" && Value("007") == 7;
    assert "round-007"[|PREFIX|..] == "007";
    assert RoundIn(tree, "round-007", 7);
    assert Digits(7) == "7" && |RoundName(7)| == 7;
    assert IsLatest(tree, 7);
  }
}
