/** Reading `git worktree list --porcelain` and picking the worktree of a task. */
module Porcelain {
  import opened Common
  import opened Text

  datatype Record = Record(path: string, branch: string)

  const WORKTREE := "worktree "
  const BRANCH := "branch "

  // ---- Lines. ----

  predicate OneLine(s: string) { '\n' !in s }

  predicate OneLines(lines: seq<string>) { lines == [] || (OneLine(lines[0]) && OneLines(lines[1..])) }

  /** The pieces between newlines; a text without one is a single piece. */
  function Split(s: string): (lines: seq<string>)
    ensures lines != []
  {
    if s == "" then [""]
    else
      var rest := Split(s[1..]);
      if s[0] == '\n' then [""] + rest else [[s[0]] + rest[0]] + rest[1..]
  }

  function Join(lines: seq<string>): string
    requires lines != []
  {
    if |lines| == 1 then lines[0] else lines[0] + "\n" + Join(lines[1..])
  }

  /** A newline-free prefix only lengthens the first piece. */
  lemma {:induction false} SplitPrefix(p: string, s: string)
    requires OneLine(p)
    ensures Split(p + s) == [p + Split(s)[0]] + Split(s)[1..]
  {
    if p == "" {
      assert p + s == s && "" + Split(s)[0] == Split(s)[0];
    } else {
      assert (p + s)[1..] == p[1..] + s;
      SplitPrefix(p[1..], s);
      assert p[0] == (p + s)[0] && p[0] != '\n';
      assert [p[0]] + (p[1..] + Split(s)[0]) == p + Split(s)[0];
    }
  }

  lemma {:induction false} SplitJoin(lines: seq<string>)
    requires lines != [] && OneLines(lines)
    ensures Split(Join(lines)) == lines
  {
    var rest := if |lines| == 1 then "" else "\n" + Join(lines[1..]);
    SplitPrefix(lines[0], rest);
    if |lines| == 1 {
      assert lines[0] + rest == lines[0];
    } else {
      SplitJoin(lines[1..]);
      assert rest[1..] == Join(lines[1..]);
      assert Split(rest) == [""] + lines[1..];
      Regroup(lines[0], "\n", Join(lines[1..]));
      assert lines[0] + "" == lines[0];
      assert [lines[0]] + lines[1..] == lines;
    }
  }

  // ---- The parser. ----

  function Flushed(records: seq<Record>, cur: Option<Record>): seq<Record> {
    if cur.Some? && cur.value.path != "" then records + [cur.value] else records
  }

  /** The records finished so far and the one being read. */
  datatype Reader = Reader(records: seq<Record>, cur: Option<Record>) {
    function Flush(): Reader {
      Reader(Flushed(records, cur), None)
    }

    function Feed(raw: string): Reader {
      var line := TrimSpace(raw);
      if line == "" then Flush()
      else if WORKTREE <= line then Reader(Flush().records, Some(Record(TrimSpace(line[|WORKTREE|..]), "")))
      else if cur == None then this
      else if BRANCH <= line then Reader(records, Some(cur.value.(branch := TrimSpace(line[|BRANCH|..]))))
      else this
    }

    function FeedAll(lines: seq<string>): Reader
      decreases |lines|
    {
      if lines == [] then this else Feed(lines[0]).FeedAll(lines[1..])
    }
  }

  const NO_RECORDS := Reader([], None)

  function Parsed(output: string): seq<Record> { NO_RECORDS.FeedAll(Split(output)).Flush().records }

  lemma FeedNext(r: Reader, lines: seq<string>, i: nat)
    requires i < |lines|
    ensures r.FeedAll(lines[i..]) == r.Feed(lines[i]).FeedAll(lines[i + 1..])
  {
    assert lines[i..][0] == lines[i] && lines[i..][1..] == lines[i + 1..];
  }

  lemma FeedNone(r: Reader, lines: seq<string>)
    ensures r.FeedAll(lines[|lines|..]) == r
  {
  }

  /** The body of the loop, for one raw line. */
  method ReadLine(records: seq<Record>, cur: Option<Record>, raw: string)
    returns (records': seq<Record>, cur': Option<Record>)
    ensures Reader(records', cur') == Reader(records, cur).Feed(raw)
  {
    records', cur' := records, cur;
    var line := TrimSpace(raw);
    if line == "" {
      return Flushed(records, cur), None;
    }
    if WORKTREE <= line {
      return Flushed(records, cur), Some(Record(TrimSpace(line[|WORKTREE|..]), ""));
    }
    if cur == None {
      return;
    }
    if BRANCH <= line {
      cur' := Some(cur.value.(branch := TrimSpace(line[|BRANCH|..])));
    }
  }

  method ParseWorktreeListPorcelain(output: string) returns (records: seq<Record>)
    ensures records == Parsed(output)
  {
    records := [];
    var cur: Option<Record> := None;
    var lines := Split(output);
    assert lines[0..] == lines;
    for i := 0 to |lines|
      invariant Reader(records, cur).FeedAll(lines[i..]) == NO_RECORDS.FeedAll(lines)
    {
      FeedNext(Reader(records, cur), lines, i);
      records, cur := ReadLine(records, cur, lines[i]);
    }
    FeedNone(Reader(records, cur), lines);
    records := Flushed(records, cur);
  }

  lemma {:induction false} FeedAllAppend(r: Reader, a: seq<string>, b: seq<string>)
    ensures r.FeedAll(a + b) == r.FeedAll(a).FeedAll(b)
    decreases |a|
  {
    if a == [] {
      assert a + b == b;
    } else {
      assert (a + b)[1..] == a[1..] + b;
      FeedAllAppend(r.Feed(a[0]), a[1..], b);
    }
  }

  // ---- Printing. ----

  /**
   * A worktree as git prints it: the path line, attribute lines before and after the branch line
   * (which is absent for a detached worktree), and blank lines up to the next record.
   */
  datatype Block = Block(
    path: string, pathEnd: string, before: seq<string>, branch: Option<string>, branchEnd: string, after: seq<string>,
    gap: seq<string>)
  {
    function PathLine(): string { "worktree " + path + pathEnd }

    function BranchLine(): seq<string> { if branch.Some? then ["branch " + branch.value + branchEnd] else [] }

    function Lines(): seq<string> { [PathLine()] + before + BranchLine() + after + gap }

    /** The record as written, trimmed of surrounding white space. */
    function Trimmed(): Record {
      Record(TrimSpace(path), if branch.Some? then TrimSpace(branch.value) else "")
    }
  }

  predicate Blank(raw: string) { OneLine(raw) && AllSpace(raw) }

  predicate Blanks(lines: seq<string>) { lines == [] || (Blank(lines[0]) && Blanks(lines[1..])) }

  /** An attribute the parser has no use for: HEAD, bare, detached, locked, prunable, ... */
  predicate Other(raw: string) {
    var line := TrimSpace(raw);
    OneLine(raw) && line != "" && !(WORKTREE <= line) && !(BRANCH <= line)
  }

  predicate Others(lines: seq<string>) { lines == [] || (Other(lines[0]) && Others(lines[1..])) }

  /** Lines may end in a carriage return or any other white space; a path must not be blank. */
  predicate WellFormed(b: Block) {
    && OneLine(b.path) && TrimSpace(b.path) != "" && Blank(b.pathEnd)
    && (b.branch.Some? ==> OneLine(b.branch.value)) && Blank(b.branchEnd)
    && Others(b.before) && Others(b.after) && Blanks(b.gap)
  }

  predicate AllWellFormed(blocks: seq<Block>) {
    blocks == [] || (WellFormed(blocks[0]) && AllWellFormed(blocks[1..]))
  }

  function AllLines(blocks: seq<Block>): seq<string> {
    if blocks == [] then [] else blocks[0].Lines() + AllLines(blocks[1..])
  }

  function AllTrimmed(blocks: seq<Block>): (r: seq<Record>)
    ensures |r| == |blocks|
  {
    if blocks == [] then [] else [blocks[0].Trimmed()] + AllTrimmed(blocks[1..])
  }

  lemma {:induction false} AllTrimmedAt(blocks: seq<Block>, i: nat)
    requires i < |blocks|
    ensures AllTrimmed(blocks)[i] == blocks[i].Trimmed()
  {
    if i > 0 {
      AllTrimmedAt(blocks[1..], i - 1);
    }
  }

  // ---- Trimming around a keyword. ----

  /** A keyword line with padding: the keyword stays, and trimming the rest gives the trimmed value. */
  lemma KeywordLine(key: string, value: string, end: string)
    requires key != "" && !IsSpace(key[0]) && AllSpace(end) && TrimSpace(value) != ""
    ensures var line := TrimSpace(key + value + end); key <= line && TrimSpace(line[|key|..]) == TrimSpace(value)
  {
    var a, b := TrimParts(value);
    TrimTight(value);
    KeywordParts(key, a, TrimSpace(value), b, end);
    KeywordTrim(key + value + end, key, a, TrimSpace(value), b + end);
  }

  lemma KeywordTrim(s: string, key: string, a: string, m: string, z: string)
    requires key != "" && !IsSpace(key[0]) && AllSpace(a) && AllSpace(z) && m != "" && Tight(m)
    requires s == "" + (key + a + m) + z
    ensures key <= TrimSpace(s) && TrimSpace(TrimSpace(s)[|key|..]) == m
  {
    KeywordTight(key, a, m);
    TrimPadded("", key + a + m, z);
    KeywordRest(key, a, m);
    TrimPadded(a, m, "");
  }

  lemma KeywordRest(key: string, a: string, m: string)
    ensures key <= key + a + m && (key + a + m)[|key|..] == a + m + ""
  {
  }

  lemma KeywordParts(key: string, a: string, m: string, b: string, end: string)
    requires AllSpace(b) && AllSpace(end)
    ensures key + (a + m + b) + end == "" + (key + a + m) + (b + end)
    ensures AllSpace(b + end)
  {
  }

  lemma KeywordTight(key: string, a: string, m: string)
    requires key != "" && !IsSpace(key[0]) && m != "" && Tight(m)
    ensures Tight(key + a + m)
  {
    assert (key + a + m)[|key + a + m| - 1] == m[|m| - 1];
  }

  /** With a blank value the keyword's own space goes too, so the line is no longer that keyword's. */
  lemma BareKeyword(word: string, value: string, end: string)
    requires word != "" && Tight(word) && AllSpace(value) && AllSpace(end)
    ensures TrimSpace(word + " " + value + end) == word
  {
    assert word + " " + value + end == "" + word + (" " + value + end);
    assert AllSpace(" " + value + end);
    TrimPadded("", word, " " + value + end);
  }

  // ---- The round trip. ----

  lemma {:induction false} FeedOthers(r: Reader, lines: seq<string>)
    requires Others(lines)
    ensures r.FeedAll(lines) == r
    decreases |lines|
  {
    if lines != [] {
      FeedOthers(r.Feed(lines[0]), lines[1..]);
    }
  }

  lemma {:induction false} FeedBlanks(r: Reader, lines: seq<string>)
    requires Blanks(lines)
    ensures r.FeedAll(lines).Flush() == r.Flush()
    decreases |lines|
  {
    if lines != [] {
      TrimBlank(lines[0]);
      FeedBlanks(r.Flush(), lines[1..]);
    }
  }

  predicate ReadsAsPath(raw: string, path: string) {
    var line := TrimSpace(raw);
    line != "" && WORKTREE <= line && TrimSpace(line[|WORKTREE|..]) == path
  }

  /** The branch a line sets; a bare keyword sets none, which is the empty branch too. */
  predicate ReadsAsBranch(raw: string, branch: string) {
    var line := TrimSpace(raw);
    && line != "" && !(WORKTREE <= line)
    && if BRANCH <= line then TrimSpace(line[|BRANCH|..]) == branch else branch == ""
  }

  lemma PathLineReads(path: string, end: string)
    requires TrimSpace(path) != "" && AllSpace(end)
    ensures ReadsAsPath(WORKTREE + path + end, TrimSpace(path))
  {
    KeywordLine(WORKTREE, path, end);
  }

  lemma BranchLineReads(branch: string, end: string)
    requires AllSpace(end)
    ensures ReadsAsBranch(BRANCH + branch + end, TrimSpace(branch))
  {
    if TrimSpace(branch) == "" {
      var a, b := TrimParts(branch);
      BareKeyword("branch", branch, end);
      BranchKeyword("branch");
    } else {
      KeywordLine(BRANCH, branch, end);
      BranchKeyword(TrimSpace(BRANCH + branch + end));
    }
  }

  /** The keywords are told apart by their first character; the bare word is too short for its own. */
  lemma BranchKeyword(line: string)
    ensures BRANCH <= line || line == "branch" ==> line != "" && !(WORKTREE <= line)
    ensures line == "branch" ==> !(BRANCH <= line)
    ensures "branch" + " " == BRANCH
  {
    assert BRANCH <= line ==> line[0] == BRANCH[0];
    assert WORKTREE <= line ==> line[0] == WORKTREE[0];
  }

  lemma FeedOne(r: Reader, raw: string)
    ensures r.FeedAll([raw]) == r.Feed(raw)
  {
    assert r.FeedAll([raw]) == r.Feed(raw).FeedAll([]);
  }

  lemma FeedPath(r: Reader, raw: string, path: string)
    requires ReadsAsPath(raw, path)
    ensures r.FeedAll([raw]) == Reader(r.Flush().records, Some(Record(path, "")))
  {
    FeedOne(r, raw);
  }

  lemma FeedBranch(r: Reader, raw: string, branch: string)
    requires ReadsAsBranch(raw, branch) && r.cur.Some? && r.cur.value.branch == ""
    ensures r.FeedAll([raw]) == Reader(r.records, Some(Record(r.cur.value.path, branch)))
  {
    FeedOne(r, raw);
  }

  lemma FeedParts(r: Reader, a: seq<string>, b: seq<string>, c: seq<string>, d: seq<string>, e: seq<string>)
    ensures r.FeedAll(a + b + c + d + e) == r.FeedAll(a).FeedAll(b).FeedAll(c).FeedAll(d).FeedAll(e)
  {
    FeedAllAppend(r, a + b + c + d, e);
    FeedAllAppend(r, a + b + c, d);
    FeedAllAppend(r, a + b, c);
    FeedAllAppend(r, a, b);
  }

  lemma FeedRecord(r: Reader, head: string, before: seq<string>, mid: seq<string>, after: seq<string>, gap: seq<string>)
    requires Others(before) && Others(after) && Blanks(gap)
    ensures r.FeedAll([head] + before + mid + after + gap).Flush() == r.FeedAll([head]).FeedAll(mid).Flush()
  {
    FeedParts(r, [head], before, mid, after, gap);
    FeedOthers(r.FeedAll([head]), before);
    FeedOthers(r.FeedAll([head]).FeedAll(mid), after);
    FeedBlanks(r.FeedAll([head]).FeedAll(mid), gap);
  }

  /** Reading the lines of one record closes what came before it and leaves the record pending or closed. */
  lemma FeedBlock(r: Reader, b: Block)
    requires WellFormed(b)
    ensures r.FeedAll(b.Lines()).Flush().records == r.Flush().records + [b.Trimmed()]
  {
    FeedRecord(r, b.PathLine(), b.before, b.BranchLine(), b.after, b.gap);
    PathLineReads(b.path, b.pathEnd);
    FeedPath(r, b.PathLine(), TrimSpace(b.path));
    if b.branch.Some? {
      BranchLineReads(b.branch.value, b.branchEnd);
      FeedBranch(r.FeedAll([b.PathLine()]), b.BranchLine()[0], TrimSpace(b.branch.value));
    }
  }

  lemma {:induction false} FeedBlocks(r: Reader, blocks: seq<Block>)
    requires AllWellFormed(blocks)
    ensures r.FeedAll(AllLines(blocks)).Flush().records == r.Flush().records + AllTrimmed(blocks)
    decreases |blocks|
  {
    if blocks != [] {
      var next := r.FeedAll(blocks[0].Lines());
      FeedAllAppend(r, blocks[0].Lines(), AllLines(blocks[1..]));
      FeedBlock(r, blocks[0]);
      FeedBlocks(next, blocks[1..]);
      Regroup(r.Flush().records, [blocks[0].Trimmed()], AllTrimmed(blocks[1..]));
    }
  }

  lemma {:induction false} OneLinesAppend(a: seq<string>, b: seq<string>)
    requires OneLines(a) && OneLines(b)
    ensures OneLines(a + b)
  {
    if a == [] {
      assert a + b == b;
    } else {
      assert (a + b)[1..] == a[1..] + b;
      OneLinesAppend(a[1..], b);
    }
  }

  lemma {:induction false} OthersOneLines(lines: seq<string>)
    requires Others(lines)
    ensures OneLines(lines)
  {
    if lines != [] {
      OthersOneLines(lines[1..]);
    }
  }

  lemma {:induction false} BlanksOneLines(lines: seq<string>)
    requires Blanks(lines)
    ensures OneLines(lines)
  {
    if lines != [] {
      BlanksOneLines(lines[1..]);
    }
  }

  lemma OneLineAppend(a: string, b: string)
    ensures OneLine(a + b) <==> OneLine(a) && OneLine(b)
  {
  }

  lemma FivePartsOneLines(a: seq<string>, b: seq<string>, c: seq<string>, d: seq<string>, e: seq<string>)
    requires OneLines(a) && OneLines(b) && OneLines(c) && OneLines(d) && OneLines(e)
    ensures OneLines(a + b + c + d + e)
  {
    OneLinesAppend(a, b);
    OneLinesAppend(a + b, c);
    OneLinesAppend(a + b + c, d);
    OneLinesAppend(a + b + c + d, e);
  }

  lemma KeywordOneLine(key: string, value: string, end: string)
    requires OneLine(key) && OneLine(value) && OneLine(end)
    ensures OneLine(key + value + end) && OneLines([key + value + end])
  {
    OneLineAppend(key, value);
    OneLineAppend(key + value, end);
  }

  lemma KeywordsOneLine()
    ensures OneLine(WORKTREE) && OneLine(BRANCH)
  {
  }

  lemma BlockLines(b: Block)
    requires WellFormed(b)
    ensures OneLines(b.Lines())
  {
    OthersOneLines(b.before);
    OthersOneLines(b.after);
    BlanksOneLines(b.gap);
    KeywordsOneLine();
    KeywordOneLine(WORKTREE, b.path, b.pathEnd);
    if b.branch.Some? {
      KeywordOneLine(BRANCH, b.branch.value, b.branchEnd);
    }
    FivePartsOneLines([b.PathLine()], b.before, b.BranchLine(), b.after, b.gap);
  }

  lemma {:induction false} AllOneLine(blocks: seq<Block>)
    requires AllWellFormed(blocks)
    ensures OneLines(AllLines(blocks))
  {
    if blocks != [] {
      BlockLines(blocks[0]);
      AllOneLine(blocks[1..]);
      OneLinesAppend(blocks[0].Lines(), AllLines(blocks[1..]));
    }
  }

  /**
   * Printing any records, with any other attribute lines, blank lines and line endings, and then
   * parsing gives the records in order, each path and branch without its surrounding white space.
   */
  lemma RoundTrip(lead: seq<string>, blocks: seq<Block>)
    requires Blanks(lead) && AllWellFormed(blocks) && lead + AllLines(blocks) != []
    ensures Parsed(Join(lead + AllLines(blocks))) == AllTrimmed(blocks)
  {
    AllOneLine(blocks);
    BlanksOneLines(lead);
    OneLinesAppend(lead, AllLines(blocks));
    SplitJoin(lead + AllLines(blocks));
    FeedAllAppend(NO_RECORDS, lead, AllLines(blocks));
    FeedBlanks(NO_RECORDS, lead);
    FeedBlocks(NO_RECORDS.FeedAll(lead), blocks);
  }

  /** So a printed record comes back unchanged exactly when its path and branch have no surrounding white space. */
  lemma TrimmedSame(b: Block)
    ensures b.Trimmed() == Record(b.path, if b.branch.Some? then b.branch.value else "")
      <==> Tight(b.path) && (b.branch.Some? ==> Tight(b.branch.value))
  {
    TightIffTrimmed(b.path);
    if b.branch.Some? {
      TightIffTrimmed(b.branch.value);
    }
  }

  // ---- Which worktree is the task's. ----

  function TrimSlashes(path: string): (r: string)
    ensures r == "" || r[|r| - 1] != '/'
  {
    if path != "" && path[|path| - 1] == '/' then TrimSlashes(path[..|path| - 1]) else path
  }

  function AfterSlash(path: string): (r: string)
    ensures '/' !in r
  {
    if path == "" || path[|path| - 1] == '/' then "" else AfterSlash(path[..|path| - 1]) + [path[|path| - 1]]
  }

  /** The last element of a path. */
  function Base(path: string): string {
    if path == "" then "."
    else if TrimSlashes(path) == "" then "/"
    else AfterSlash(TrimSlashes(path))
  }

  lemma {:induction false} BaseOfChild(dir: string, name: string)
    requires name != "" && '/' !in name
    ensures Base(dir + "/" + name) == name
  {
    var p := dir + "/" + name;
    assert p[|p| - 1] == name[|name| - 1];
    AfterSlashAppend(dir + "/", name);
  }

  lemma {:induction false} AfterSlashAppend(a: string, name: string)
    requires '/' !in name && a != "" && a[|a| - 1] == '/'
    ensures AfterSlash(a + name) == name
    decreases |name|
  {
    if name == "" {
      assert a + name == a;
    } else {
      var n := |name| - 1;
      assert (a + name)[..|a + name| - 1] == a + name[..n];
      AfterSlashAppend(a, name[..n]);
    }
  }

  /** `head` is the full ref of the branch the worktree was named after. */
  predicate Matches(r: Record, name: string, head: string) { Base(r.path) == name || r.branch == head }

  function Kept<T>(f: T -> bool, s: seq<T>): seq<T> {
    if s == [] then [] else Kept(f, s[..|s| - 1]) + if f(s[|s| - 1]) then [s[|s| - 1]] else []
  }

  ghost predicate IsFirst<T>(f: T -> bool, s: seq<T>, i: int, x: T) {
    0 <= i < |s| && s[i] == x && f(x) && forall k :: 0 <= k < i ==> !f(s[k])
  }

  lemma {:induction false} FirstKept<T>(f: T -> bool, s: seq<T>)
    ensures Kept(f, s) == [] <==> forall k :: 0 <= k < |s| ==> !f(s[k])
    ensures Kept(f, s) != [] ==> exists i :: IsFirst(f, s, i, Kept(f, s)[0])
  {
    if s != [] {
      var rest, x := s[..|s| - 1], s[|s| - 1];
      FirstKept(f, rest);
      if Kept(f, rest) != [] {
        var i :| IsFirst(f, rest, i, Kept(f, rest)[0]);
        assert IsFirst(f, s, i, Kept(f, s)[0]);
      } else {
        assert forall k :: 0 <= k < |rest| ==> rest[k] == s[k];
        assert Kept(f, s) == if f(x) then [x] else [];
        assert f(x) ==> IsFirst(f, s, |rest|, Kept(f, s)[0]);
      }
    }
  }

  lemma KeptNext<T>(f: T -> bool, s: seq<T>, i: nat)
    requires i < |s|
    ensures Kept(f, s[..i + 1]) == Kept(f, s[..i]) + if f(s[i]) then [s[i]] else []
  {
    assert s[..i + 1][..i] == s[..i];
  }

  function MatchOf(name: string, head: string): Record -> bool { (r: Record) => Matches(r, name, head) }

  /** The matching records, in order. */
  function Matching(records: seq<Record>, name: string, head: string): seq<Record> {
    Kept(MatchOf(name, head), records)
  }

  method CollectMatches(records: seq<Record>, name: string, head: string) returns (matches: seq<Record>)
    ensures matches == Matching(records, name, head)
  {
    matches := [];
    for i := 0 to |records|
      invariant matches == Matching(records[..i], name, head)
    {
      KeptNext(MatchOf(name, head), records, i);
      if Base(records[i].path) == name || records[i].branch == head {
        matches := matches + [records[i]];
      }
    }
    assert records[..|records|] == records;
  }

  /** Record `r` is a worktree of that name, or on the branch of that name. */
  predicate NamedSo(r: Record, name: string) { Base(r.path) == name || r.branch == "refs/heads/" + name }

  /** Record `i` is the first of that name. */
  predicate Selects(records: seq<Record>, name: string, i: int) {
    0 <= i < |records| && NamedSo(records[i], name) && forall k :: 0 <= k < i ==> !NamedSo(records[k], name)
  }

  /** Two records of that name. */
  predicate Two(records: seq<Record>, name: string, i: int, j: int) {
    0 <= i < j < |records| && NamedSo(records[i], name) && NamedSo(records[j], name)
  }

  lemma {:induction false} KeptTwo<T>(f: T -> bool, s: seq<T>)
    ensures |Kept(f, s)| > 0 <==> exists i :: 0 <= i < |s| && f(s[i])
    ensures |Kept(f, s)| > 1 <==> exists i, j :: 0 <= i < j < |s| && f(s[i]) && f(s[j])
  {
    if s != [] {
      var n := |s| - 1;
      KeptTwo(f, s[..n]);
      assert forall k :: 0 <= k < n ==> s[..n][k] == s[k];
      if i, j :| 0 <= i < j < |s| && f(s[i]) && f(s[j]) {
        if j == n {
          assert f(s[..n][i]);
        } else {
          assert f(s[..n][i]) && f(s[..n][j]);
        }
      }
      if |Kept(f, s)| > 1 && f(s[n]) {
        var i :| 0 <= i < n && f(s[..n][i]);
        assert 0 <= i < n < |s| && f(s[i]) && f(s[n]);
      }
    }
  }

  /** The filter's answers, told by the records' own names. */
  lemma SelectedIs(records: seq<Record>, name: string)
    ensures var m := Matching(records, name, "refs/heads/" + name);
      && (m == [] <==> forall r :: r in records ==> !NamedSo(r, name))
      && (m != [] ==> exists i :: Selects(records, name, i) && m[0] == records[i])
      && (|m| > 1 <==> exists i, j :: Two(records, name, i, j))
  {
    var f := MatchOf(name, "refs/heads/" + name);
    FirstKept(f, records);
    KeptTwo(f, records);
    assert forall r :: f(r) <==> NamedSo(r, name);
    if Kept(f, records) != [] {
      var i :| IsFirst(f, records, i, Kept(f, records)[0]);
      assert Selects(records, name, i);
    }
    if i, j :| 0 <= i < j < |records| && f(records[i]) && f(records[j]) {
      assert Two(records, name, i, j);
    }
  }

  /** The worktree to remove: the first match, with a warning when it is not the only one. */
  method SelectWorktree(output: string, name: string) returns (path: Option<string>, ambiguous: bool)
    ensures ambiguous <==> |Matching(Parsed(output), name, "refs/heads/" + name)| > 1
    ensures path == None <==> Matching(Parsed(output), name, "refs/heads/" + name) == []
    ensures path.Some? ==>
      exists i, r :: IsFirst(MatchOf(name, "refs/heads/" + name), Parsed(output), i, r) && path.value == r.path
    ensures forall r :: r in Parsed(output) && (Base(r.path) == name || r.branch == "refs/heads/" + name) ==> path.Some?
    ensures path.Some? ==> exists i :: Selects(Parsed(output), name, i) && path.value == Parsed(output)[i].path
    ensures ambiguous <==> exists i, j :: Two(Parsed(output), name, i, j)
  {
    var records := ParseWorktreeListPorcelain(output);
    var matches := CollectMatches(records, name, "refs/heads/" + name);
    FirstKept(MatchOf(name, "refs/heads/" + name), records);
    SelectedIs(records, name);
    if |matches| == 0 {
      return None, false;
    }
    return Some(matches[0].path), |matches| > 1;
  }
}
