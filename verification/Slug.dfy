/** Worktree names: the slug of a project and the slug of a task. */
module Slug {

  predicate Alnum(c: char) { 'a' <= c <= 'z' || '0' <= c <= '9' }

  // ---- The words of a text: its maximal runs of letters and digits. ----

  /** The length of the run at the front. */
  function RunLen(t: string): (k: nat)
    ensures k <= |t| && (forall i :: 0 <= i < k ==> Alnum(t[i])) && (k < |t| ==> !Alnum(t[k]))
  {
    if t == "" || !Alnum(t[0]) then 0 else 1 + RunLen(t[1..])
  }

  predicate IsWord(w: string) { w != "" && forall i :: 0 <= i < |w| ==> Alnum(w[i]) }

  predicate Clean(words: seq<string>) { words == [] || (IsWord(words[0]) && Clean(words[1..])) }

  function Words(t: string): (words: seq<string>)
    ensures Clean(words)
    ensures words == [] <==> forall i :: 0 <= i < |t| ==> !Alnum(t[i])
    decreases |t|
  {
    if t == "" then []
    else if !Alnum(t[0]) then
      assert t == [t[0]] + t[1..];
      Words(t[1..])
    else [t[..RunLen(t)]] + Words(t[RunLen(t)..])
  }

  function Dashed(words: seq<string>): string {
    if words == [] then "" else if |words| == 1 then words[0] else words[0] + "-" + Dashed(words[1..])
  }

  function Clip(s: string, limit: nat): string { if |s| <= limit then s else s[..limit] }

  function Lowered(s: string, lower: char -> char): (t: string)
    ensures |t| == |s| && forall i :: 0 <= i < |s| ==> t[i] == lower(s[i])
  {
    if s == "" then "" else [lower(s[0])] + Lowered(s[1..], lower)
  }

  /** What a slug is: the lowercased words joined by single dashes, cut to the limit. */
  function SlugOf(s: string, limit: nat, lower: char -> char): string {
    Clip(Dashed(Words(Lowered(s, lower))), limit)
  }

  // ---- The loop. ----

  /** What the loop writes for `t` when the last thing written was a dash, or nothing yet (`dash`). */
  function Written(dash: bool, t: string): string
    decreases |t|
  {
    if t == "" then ""
    else if Alnum(t[0]) then [t[0]] + Written(false, t[1..])
    else if dash then Written(true, t[1..])
    else "-" + Written(true, t[1..])
  }

  function TrimDashes(s: string): (r: string)
    ensures r <= s && (r == "" || r[|r| - 1] != '-')
  {
    if s != "" && s[|s| - 1] == '-' then TrimDashes(s[..|s| - 1]) else s
  }

  method Slugify(s: string, limit: nat, lower: char -> char) returns (slug: string)
    ensures slug == SlugOf(s, limit, lower)
  {
    var t := Lowered(s, lower);
    var b, prevDash := "", true;
    for i := 0 to |t|
      invariant b + Written(prevDash, t[i..]) == Written(true, t)
    {
      assert t[i..][0] == t[i] && t[i..][1..] == t[i + 1..];
      if Alnum(t[i]) {
        assert b + Written(prevDash, t[i..]) == b + [t[i]] + Written(false, t[i + 1..]);
        b, prevDash := b + [t[i]], false;
        continue;
      }
      if !prevDash {
        assert b + Written(prevDash, t[i..]) == b + "-" + Written(true, t[i + 1..]);
        b, prevDash := b + "-", true;
      }
    }
    assert b == Written(true, t);
    TrimmedIsDashed(t);
    slug := Clip(TrimDashes(b), limit);
  }

  lemma {:induction false} WrittenRun(dash: bool, t: string)
    requires t != "" && Alnum(t[0])
    ensures Written(dash, t) == t[..RunLen(t)] + Written(false, t[RunLen(t)..])
  {
    if |t| > 1 && Alnum(t[1]) {
      WrittenRun(false, t[1..]);
      assert t[1..][..RunLen(t[1..])] == t[1..RunLen(t)];
      assert t[1..][RunLen(t[1..])..] == t[RunLen(t)..];
      assert t[..RunLen(t)] == [t[0]] + t[1..RunLen(t)];
    }
  }

  lemma {:induction false} TrimDashesAppend(a: string, s: string)
    ensures TrimDashes(a + s) == if TrimDashes(s) == "" then TrimDashes(a) else a + TrimDashes(s)
    decreases |s|
  {
    if s == "" {
      assert a + s == a;
    } else if s[|s| - 1] == '-' {
      assert (a + s)[..|a + s| - 1] == a + s[..|s| - 1];
      TrimDashesAppend(a, s[..|s| - 1]);
    }
  }

  lemma TrimAfterWord(a: string, s: string)
    requires IsWord(a)
    ensures TrimDashes(a) == a
    ensures TrimDashes(a + ("-" + s)) == if TrimDashes(s) == "" then a else a + "-" + TrimDashes(s)
  {
    TrimDashesAppend("-", s);
    assert TrimDashes("-") == TrimDashes("-"[..0]) == "";
    TrimDashesAppend(a, "-" + s);
    assert a + ("-" + TrimDashes(s)) == a + "-" + TrimDashes(s);
  }

  /** The flag-driven loop, trimmed, writes the words joined by dashes. */
  lemma {:induction false} TrimmedIsDashed(t: string)
    ensures TrimDashes(Written(true, t)) == Dashed(Words(t))
    decreases |t|
  {
    if t != "" && Alnum(t[0]) {
      var k := RunLen(t);
      var rest := t[k..];
      WrittenRun(true, t);
      if rest == "" {
        TrimAfterWord(t[..k], "");
        assert t[..k] + Written(false, rest) == t[..k];
      } else {
        TrimAfterWord(t[..k], Written(true, rest[1..]));
        TrimmedIsDashed(rest[1..]);
        assert Words(t)[1..] == Words(rest);
        assert Words(rest) != [] ==> Dashed(Words(rest)) != "";
      }
    } else if t != "" {
      TrimmedIsDashed(t[1..]);
    }
  }

  // ---- What that makes of a slug. ----

  predicate SlugChars(s: string) { forall i :: 0 <= i < |s| ==> Alnum(s[i]) || s[i] == '-' }

  predicate NoDoubleDash(s: string) { forall i :: 0 <= i < |s| - 1 ==> s[i] != '-' || s[i + 1] != '-' }

  lemma {:induction false} DashedShape(words: seq<string>)
    requires Clean(words)
    ensures var s := Dashed(words); SlugChars(s) && NoDoubleDash(s)
    ensures var s := Dashed(words); s != "" ==> Alnum(s[0]) && Alnum(s[|s| - 1])
    ensures Dashed(words) == "" <==> words == []
  {
    if |words| > 1 {
      DashedShape(words[1..]);
      JoinShape(words[0], Dashed(words[1..]));
    }
  }

  lemma JoinShape(a: string, b: string)
    requires a != "" && b != "" && SlugChars(a) && NoDoubleDash(a) && SlugChars(b) && NoDoubleDash(b)
    requires a[0] != '-' && a[|a| - 1] != '-' && b[0] != '-'
    ensures var s := a + "-" + b; SlugChars(s) && NoDoubleDash(s) && s[0] == a[0] && s[|s| - 1] == b[|b| - 1]
  {
    var s := a + "-" + b;
    forall i | 0 <= i < |s|
      ensures s[i] == if i < |a| then a[i] else if i == |a| then '-' else b[i - |a| - 1]
    {
    }
  }

  /** The cut falls right behind the first `k` words, on the dash that separates them from the next. */
  predicate CutAfter(words: seq<string>, limit: nat, k: nat) {
    0 < k < |words| && |Dashed(words[..k])| + 1 == limit
  }

  ghost predicate CutOnDash(words: seq<string>, limit: nat) { exists k: nat :: CutAfter(words, limit, k) }

  lemma {:induction false} DashAt(words: seq<string>, limit: nat)
    requires Clean(words) && 0 < limit <= |Dashed(words)|
    ensures Dashed(words)[limit - 1] == '-' <==> CutOnDash(words, limit)
  {
    if |words| > 1 {
      var w, rest, n := words[0], words[1..], limit - |words[0]| - 1;
      assert words[..1] == [w];
      forall k: nat | 1 < k < |words| ensures CutAfter(words, limit, k) <==> n >= 0 && CutAfter(rest, n, k - 1) {
        assert words[..k][1..] == rest[..k - 1];
        assert rest[..k - 1] != [];
      }
      if n == 0 {
        assert CutAfter(words, limit, 1);
      } else if n > 0 {
        DashAt(rest, n);
        assert Dashed(words)[limit - 1] == Dashed(rest)[n - 1];
        if CutOnDash(rest, n) {
          var k: nat :| CutAfter(rest, n, k);
          assert CutAfter(words, limit, k + 1);
        }
      }
    }
  }

  /**
   * Every slug has slug characters only, no leading and no doubled dash, at most `limit` characters,
   * and is empty only for a text without letters or digits. It ends in a dash
   * exactly when the cut falls right behind a word, because the cut comes after the trimming.
   */
  lemma SlugShape(s: string, limit: nat, lower: char -> char)
    ensures var r := SlugOf(s, limit, lower);
      SlugChars(r) && NoDoubleDash(r) && |r| <= limit && (r != "" ==> r[0] != '-')
    ensures forall c :: c in SlugOf(s, limit, lower) ==> 'a' <= c <= 'z' || '0' <= c <= '9' || c == '-'
    ensures limit > 0 ==> (SlugOf(s, limit, lower) == "" <==> forall i :: 0 <= i < |s| ==> !Alnum(lower(s[i])))
    ensures var r := SlugOf(s, limit, lower);
      r != "" ==> (r[|r| - 1] == '-' <==> CutOnDash(Words(Lowered(s, lower)), limit))
  {
    var words := Words(Lowered(s, lower));
    DashedShape(words);
    ClipShape(Dashed(words), limit);
    if limit > 0 && words != [] {
      ClipEnd(words, limit);
    }
  }

  lemma ClipShape(d: string, limit: nat)
    requires SlugChars(d) && NoDoubleDash(d) && (d != "" ==> Alnum(d[0]))
    ensures var r := Clip(d, limit); SlugChars(r) && NoDoubleDash(r) && |r| <= limit && (r != "" ==> Alnum(r[0]))
  {
  }

  lemma ClipEnd(words: seq<string>, limit: nat)
    requires Clean(words) && words != [] && limit > 0
    ensures Clip(Dashed(words), limit) != ""
    ensures var r := Clip(Dashed(words), limit); r[|r| - 1] == '-' <==> CutOnDash(words, limit)
  {
    DashedShape(words);
    if |Dashed(words)| > limit {
      DashAt(words, limit);
    } else {
      forall k: nat | CutAfter(words, limit, k) ensures false {
        DashedPrefix(words, k);
      }
    }
  }

  /** Some words take less room than all of them. */
  lemma {:induction false} DashedPrefix(words: seq<string>, k: nat)
    requires Clean(words) && 0 < k < |words|
    ensures |Dashed(words[..k])| + 1 < |Dashed(words)|
  {
    if k == 1 {
      assert words[..1] == [words[0]];
      DashedShape(words[1..]);
    } else {
      DashedPrefix(words[1..], k - 1);
      assert words[..k][1..] == words[1..][..k - 1];
    }
  }

  /** The letters and digits of a text, in order. */
  function Letters(t: string): string {
    if t == "" then "" else (if Alnum(t[0]) then [t[0]] else "") + Letters(t[1..])
  }

  lemma {:induction false} LettersAppend(a: string, b: string)
    ensures Letters(a + b) == Letters(a) + Letters(b)
  {
    if a == "" {
      assert a + b == b;
    } else {
      assert (a + b)[1..] == a[1..] + b;
      LettersAppend(a[1..], b);
      Regrouped(if Alnum(a[0]) then [a[0]] else "", Letters(a[1..]), Letters(b));
    }
  }

  lemma Regrouped(a: string, b: string, c: string)
    ensures a + b + c == a + (b + c)
  {
  }

  lemma {:induction false} WordLetters(w: string)
    requires forall i :: 0 <= i < |w| ==> Alnum(w[i])
    ensures Letters(w) == w
  {
    if w != "" {
      WordLetters(w[1..]);
    }
  }

  lemma DashLetters(w: string, rest: string)
    requires IsWord(w)
    ensures Letters(w + "-" + rest) == w + Letters(rest)
  {
    LettersAppend(w + "-", rest);
    LettersAppend(w, "-");
    WordLetters(w);
    assert Letters("-") == "" + Letters("-"[1..]) && "-"[1..] == "";
    assert Letters("-") == "" && w + "" == w;
  }

  /** Joining the words keeps every letter and digit of the text. */
  lemma {:induction false} DashedLetters(t: string)
    ensures Letters(Dashed(Words(t))) == Letters(t)
    decreases |t|
  {
    if t != "" && !Alnum(t[0]) {
      DashedLetters(t[1..]);
    } else if t != "" {
      var k := RunLen(t);
      var w, rest := t[..k], t[k..];
      DashedLetters(rest);
      assert t == w + rest;
      LettersAppend(w, rest);
      WordLetters(w);
      if Words(rest) == [] {
        assert Letters(Dashed([])) == "" && w + "" == w;
      } else {
        DashLetters(w, Dashed(Words(rest)));
        assert ([w] + Words(rest))[1..] == Words(rest);
      }
    }
  }

  /** A slug's letters and digits are those of the lowercased text, in order: all of them unless it is cut. */
  lemma SlugLetters(s: string, limit: nat, lower: char -> char)
    ensures Letters(SlugOf(s, limit, lower)) <= Letters(Lowered(s, lower))
    ensures |SlugOf(s, limit, lower)| < limit ==> Letters(SlugOf(s, limit, lower)) == Letters(Lowered(s, lower))
  {
    var d := Dashed(Words(Lowered(s, lower)));
    DashedLetters(Lowered(s, lower));
    var r := Clip(d, limit);
    assert d == r + d[|r|..];
    LettersAppend(r, d[|r|..]);
  }

  // ---- The worktree name. ----

  const SLUG_MAX := 48

  /** Lowercasing agrees with ASCII where ASCII is concerned; what it does elsewhere does not matter. */
  ghost predicate LowersAscii(lower: char -> char) {
    forall c :: (Alnum(c) ==> lower(c) == c) && ('A' <= c <= 'Z' ==> lower(c) == (c as int + 32) as char)
  }

  predicate AsciiAlnum(c: char) { Alnum(c) || 'A' <= c <= 'Z' }

  lemma NameShape(p: string, t: string)
    requires SlugChars(p) && SlugChars(t) && NoDoubleDash(p) && NoDoubleDash(t) && p != "" && t != "" && t[0] != '-'
    ensures var s := p + "-" + t; SlugChars(s) && (NoDoubleDash(s) <==> p[|p| - 1] != '-')
  {
    var s := p + "-" + t;
    forall i | 0 <= i < |s|
      ensures s[i] == if i < |p| then p[i] else if i == |p| then '-' else t[i - |p| - 1]
    {
    }
    assert s[|p| - 1] == p[|p| - 1] && s[|p|] == '-';
  }

  /** `<project>-<task>`; the task part falls back to the id, and an empty part goes without its dash. */
  method WorktreeNameFor(project: string, summary: string, id: string, lower: char -> char) returns (name: string)
    ensures |name| <= 97 && '/' !in name && (name != "" ==> name[0] != '-')
    ensures LowersAscii(lower) && (exists i :: 0 <= i < |id| && AsciiAlnum(id[i])) ==> name != ""
    ensures
      var p := SlugOf(project, 48, lower);
      var t := SlugOf(if SlugOf(summary, 48, lower) == "" then id else summary, 48, lower);
      && name == (if p != "" && t != "" then p + "-" + t else p + t)
      && (NoDoubleDash(name) <==> p == "" || t == "" || p[|p| - 1] != '-')
  {
    var projectSlug := Slugify(project, SLUG_MAX, lower);
    var taskSlug := Slugify(summary, SLUG_MAX, lower);
    SlugShape(project, SLUG_MAX, lower);
    SlugShape(summary, SLUG_MAX, lower);
    if taskSlug == "" {
      SlugShape(id, SLUG_MAX, lower);
      taskSlug := Slugify(id, SLUG_MAX, lower);
    }
    name := JoinSlugs(projectSlug, taskSlug);
  }

  method JoinSlugs(p: string, t: string) returns (name: string)
    requires SlugChars(p) && SlugChars(t) && NoDoubleDash(p) && NoDoubleDash(t)
    requires |p| <= SLUG_MAX && |t| <= SLUG_MAX && (p != "" ==> p[0] != '-') && (t != "" ==> t[0] != '-')
    ensures name == if p != "" && t != "" then p + "-" + t else p + t
    ensures |name| <= 97 && '/' !in name && (name != "" ==> name[0] != '-') && (name == "" <==> p == "" && t == "")
    ensures NoDoubleDash(name) <==> p == "" || t == "" || p[|p| - 1] != '-'
  {
    if p == "" {
      return t;
    }
    if t == "" {
      return p;
    }
    NameShape(p, t);
    return p + "-" + t;
  }

  // ---- A cut behind a word. ----

  lemma {:induction false} RunOfWord(a: string, t: string)
    requires (forall i :: 0 <= i < |a| ==> Alnum(a[i])) && (t != "" ==> !Alnum(t[0]))
    ensures RunLen(a + t) == |a|
  {
    if a == "" {
      assert a + t == t;
    } else {
      assert (a + t)[1..] == a[1..] + t;
      RunOfWord(a[1..], t);
    }
  }

  lemma {:induction false} LoweredSame(s: string)
    ensures Lowered(s, (c: char) => c) == s
  {
  }

  /** A word one short of the limit, a blank, another word: the slug ends in the dash between them. */
  lemma ClippedBehindWord(a: string, limit: nat)
    requires IsWord(a) && |a| + 1 == limit
    ensures SlugOf(a + " b", limit, (c: char) => c) == a + "-"
  {
    LoweredSame(a + " b");
    RunOfWord(a, " b");
    var t := a + " b";
    assert t[..|a|] == a && t[|a|..] == " b";
    assert " b"[1..] == "b" && RunLen("b") == 1 && "b"[..1] == "b" && "b"[1..] == "";
    assert Words("b") == ["b"] + Words("");
    assert Words(" b") == ["b"];
    assert Words(t) == [a] + ["b"];
    assert [a, "b"][1..] == ["b"];
    assert Dashed([a, "b"]) == a + "-" + "b";
    assert (a + "-" + "b")[..limit] == a + "-";
  }

  /** The worktree name of such a project has a doubled dash. */
  lemma DoubledDash(a: string, t: string)
    requires IsWord(a) && |a| + 1 == SLUG_MAX && SlugOf(t, SLUG_MAX, (c: char) => c) != ""
    ensures var p := SlugOf(a + " b", SLUG_MAX, (c: char) => c);
      !NoDoubleDash(p + "-" + SlugOf(t, SLUG_MAX, (c: char) => c))
  {
    ClippedBehindWord(a, SLUG_MAX);
    SlugShape(t, SLUG_MAX, (c: char) => c);
    SlugShape(a + " b", SLUG_MAX, (c: char) => c);
    NameShape(SlugOf(a + " b", SLUG_MAX, (c: char) => c), SlugOf(t, SLUG_MAX, (c: char) => c));
  }
}
