/** The status emoji in front of a linked issue's title. */
module TitlePrefix {
  import opened Common
  import opened Fsm
  import opened Text

  const ALERT := '\U{2757}'
  const EYES := '\U{1F440}'

  predicate IsMark(c: char) { c == ALERT || c == EYES }

  function PrefixFor(status: Status): string {
    match status
    case NeedsClarification | Failed | Help => [ALERT, ' ']
    case PlanPendingApproval => [EYES, ' ']
    case _ => ""
  }

  /** Without one leading emoji and the single blank that may follow it. */
  function TrimOnePrefix(s: string): (r: Option<string>)
    ensures r.Some? ==> |r.value| < |s|
  {
    if [ALERT, ' '] <= s then Some(s[2..])
    else if [EYES, ' '] <= s then Some(s[2..])
    else if [ALERT] <= s then Some(s[1..])
    else if [EYES] <= s then Some(s[1..])
    else None
  }

  // ---- What stripping means. ----

  /** The end of the last emoji in the leading run of white space and emoji; 0 when there is none. */
  function Mark(s: string): (n: nat)
    ensures n <= |s| && (n > 0 ==> IsMark(s[n - 1])) && forall i :: 0 <= i < n ==> IsMark(s[i]) || IsSpace(s[i])
  {
    if s == "" then 0
    else if IsMark(s[0]) then 1 + Mark(s[1..])
    else if IsSpace(s[0]) && Mark(s[1..]) > 0 then 1 + Mark(s[1..])
    else 0
  }

  function DropBlank(s: string): string { if s != "" && s[0] == ' ' then s[1..] else s }

  /** The text behind that emoji and its blank; a title without one is left alone, white space included. */
  function Stripped(s: string): string { if Mark(s) == 0 then s else DropBlank(s[Mark(s)..]) }

  /** The loop: as long as an emoji leads (behind white space), drop it. */
  method StripStatusPrefix(title: string) returns (s: string)
    ensures s == Stripped(title)
  {
    s := title;
    while true
      invariant Stripped(s) == Stripped(title)
      decreases |s|
    {
      var trimmed := TrimLeft(s);
      var next := TrimOnePrefix(trimmed);
      ghost var a := LeftPart(s);
      StripOne(s, a, trimmed);
      if next == None {
        return;
      }
      s := next.value;
    }
  }

  lemma {:induction false} MarkBehindSpace(a: string, s: string)
    requires AllSpace(a) && s != "" && IsMark(s[0])
    ensures Mark(a + s) == |a| + Mark(s)
  {
    if a == "" {
      assert a + s == s;
    } else {
      assert (a + s)[1..] == a[1..] + s;
      MarkBehindSpace(a[1..], s);
    }
  }

  lemma {:induction false} NoMark(a: string, s: string)
    requires AllSpace(a) && (s == "" || (!IsMark(s[0]) && !IsSpace(s[0])))
    ensures Mark(a + s) == 0
  {
    if a == "" {
      assert a + s == s;
    } else {
      assert (a + s)[1..] == a[1..] + s;
      NoMark(a[1..], s);
    }
  }

  /** Dropping a blank behind an emoji does not change what is stripped from there. */
  lemma StrippedBlank(s: string)
    requires Mark(s) > 0
    ensures Stripped(DropBlank(s)) == Stripped(s)
  {
    if s[0] == ' ' {
      assert s[1..][Mark(s[1..])..] == s[Mark(s)..];
    }
  }

  lemma StripMark(t: string)
    requires t != "" && IsMark(t[0])
    ensures Stripped(DropBlank(t[1..])) == Stripped(t)
  {
    var rest := t[1..];
    assert t[Mark(t)..] == rest[Mark(rest)..];
    if Mark(rest) > 0 {
      StrippedBlank(rest);
    } else {
      NoMarkBehindBlank(rest);
    }
  }

  lemma StripBehindSpace(a: string, t: string)
    requires AllSpace(a) && t != "" && IsMark(t[0])
    ensures Mark(a + t) > 0 && Stripped(a + t) == Stripped(t)
  {
    MarkBehindSpace(a, t);
    DropBoth(a, t, Mark(t));
  }

  lemma DropBoth(a: string, t: string, n: nat)
    requires n <= |t|
    ensures (a + t)[|a| + n..] == t[n..]
  {
  }

  /** One round of the loop on `s`, which is white space `a` and then `t`. */
  lemma StripOne(s: string, a: string, t: string)
    requires s == a + t && AllSpace(a) && (t == "" || !IsSpace(t[0]))
    ensures if TrimOnePrefix(t) == None then Mark(s) == 0 else Stripped(TrimOnePrefix(t).value) == Stripped(s)
  {
    if t != "" && IsMark(t[0]) {
      StripBehindSpace(a, t);
      StripMark(t);
      DropsOne(t);
    } else {
      NoMark(a, t);
      DropsNone(t);
    }
  }

  lemma DropsNone(t: string)
    requires t == "" || !IsMark(t[0])
    ensures TrimOnePrefix(t) == None
  {
  }

  lemma DropsOne(t: string)
    requires t != "" && IsMark(t[0])
    ensures TrimOnePrefix(t) == Some(DropBlank(t[1..]))
  {
    if |t| > 1 && t[1] == ' ' {
      assert t[..2] == [t[0], ' '];
      assert t[1..][1..] == t[2..];
    } else {
      assert !([ALERT, ' '] <= t) && !([EYES, ' '] <= t);
      assert t[..1] == [t[0]];
    }
  }

  lemma NoMarkBehindBlank(s: string)
    requires Mark(s) == 0
    ensures Mark(DropBlank(s)) == 0
  {
  }

  /** Stripping returns a suffix, takes only emoji and white space away, and is idempotent. */
  lemma StripLaws(s: string)
    ensures var r := Stripped(s);
      |r| <= |s| && r == s[|s| - |r|..] && forall i :: 0 <= i < |s| - |r| ==> IsMark(s[i]) || IsSpace(s[i])
    ensures Mark(Stripped(s)) == 0 && Stripped(Stripped(s)) == Stripped(s)
  {
    if Mark(s) > 0 {
      NothingBehind(s);
      NoMarkBehindBlank(s[Mark(s)..]);
    }
  }

  lemma {:induction false} NothingBehind(s: string)
    ensures Mark(s[Mark(s)..]) == 0
  {
    if Mark(s) > 0 {
      NothingBehind(s[1..]);
      assert s[1..][Mark(s[1..])..] == s[Mark(s)..];
    } else {
      assert s[0..] == s;
    }
  }

  /** An emoji at `k` with nothing but emoji and white space before it. */
  predicate LeadsAt(s: string, k: nat) {
    && k < |s| && s[k] in {'\U{2757}', '\U{1F440}'}
    && forall i :: 0 <= i < k ==> s[i] in {'\U{2757}', '\U{1F440}'} || IsSpace(s[i])
  }

  lemma {:induction false} MarkCovers(s: string, k: nat)
    requires LeadsAt(s, k)
    ensures k < Mark(s)
  {
    if k > 0 {
      assert s[1..][k - 1] == s[k] && forall i :: 0 <= i < k - 1 ==> s[1..][i] == s[i + 1];
      MarkCovers(s[1..], k - 1);
    }
  }

  /**
   * Exactly what is stripped: with no leading emoji nothing, and otherwise everything up to the last
   * leading one and a single blank behind it.
   */
  lemma StripExactly(s: string)
    ensures (forall k: nat :: !LeadsAt(s, k)) ==> Stripped(s) == s
    ensures forall k: nat :: LeadsAt(s, k) && (forall j: nat :: LeadsAt(s, j) ==> j <= k) ==>
      Stripped(s) == if k + 1 < |s| && s[k + 1] == ' ' then s[k + 2..] else s[k + 1..]
  {
    if Mark(s) > 0 {
      assert LeadsAt(s, Mark(s) - 1);
    }
    forall k: nat | LeadsAt(s, k)
      ensures k < Mark(s)
    {
      MarkCovers(s, k);
    }
  }

  // ---- Decoration. ----

  function Decorated(title: string, status: Status): string { PrefixFor(status) + Stripped(title) }

  method DecorateTitle(current: string, status: Status) returns (title: string)
    ensures title == Decorated(current, status)
  {
    var stripped := StripStatusPrefix(current);
    title := PrefixFor(status) + stripped;
  }

  /** An emoji and a blank in front of a text without a leading emoji are that text's mark. */
  lemma MarkedFront(c: char, r: string)
    requires IsMark(c) && Mark(r) == 0
    ensures Mark([c, ' '] + r) == 1 && Stripped([c, ' '] + r) == r
  {
    var s := [c, ' '] + r;
    var tail := s[1..];
    assert tail[1..] == r;
    assert Mark(tail) == 0;
  }

  /** Whatever was put in front is taken off again. */
  lemma StripDecorated(title: string, status: Status)
    ensures Stripped(Decorated(title, status)) == Stripped(title)
  {
    StripLaws(title);
    PrefixedShape(status, Stripped(title));
  }

  lemma PrefixedShape(status: Status, r: string)
    requires Mark(r) == 0
    ensures Stripped(PrefixFor(status) + r) == r
    ensures Mark(PrefixFor(status) + r) == if PrefixFor(status) == "" then 0 else 1
  {
    var p := PrefixFor(status);
    if p == "" {
      assert p + r == r;
    } else {
      MarkedFront(p[0], r);
    }
  }

  /** The title after a run of transitions, each decorating what the one before left. */
  function DecoratedAll(title: string, statuses: seq<Status>): string {
    if statuses == [] then title
    else Decorated(DecoratedAll(title, statuses[..|statuses| - 1]), statuses[|statuses| - 1])
  }

  lemma {:induction false} StripHistory(title: string, statuses: seq<Status>)
    ensures Stripped(DecoratedAll(title, statuses)) == Stripped(title)
  {
    if statuses != [] {
      var before := DecoratedAll(title, statuses[..|statuses| - 1]);
      StripHistory(title, statuses[..|statuses| - 1]);
      StripDecorated(before, statuses[|statuses| - 1]);
    }
  }

  /** A title forgets its history: only the last status shows. */
  lemma HistoryForgotten(title: string, statuses: seq<Status>)
    requires statuses != []
    ensures DecoratedAll(title, statuses) == Decorated(title, statuses[|statuses| - 1])
  {
    StripHistory(title, statuses[..|statuses| - 1]);
  }

  /**
   * The title shown: an alert and a blank for a row that waits for help or an answer or has failed,
   * eyes and a blank for a plan that waits for approval, nothing for any other status, and behind it
   * the text without a leading emoji.
   */
  lemma ShownMark(title: string, status: Status)
    ensures var r := Stripped(title);
      Decorated(title, status) ==
        if status in {NeedsClarification, Failed, Help} then ['\U{2757}', ' '] + r
        else if status == PlanPendingApproval then ['\U{1F440}', ' '] + r
        else r
    ensures Mark(Decorated(title, status)) == if status in {NeedsClarification, Failed, Help, PlanPendingApproval} then 1 else 0
  {
    StripLaws(title);
    PrefixedShape(status, Stripped(title));
    assert "" + Stripped(title) == Stripped(title);
  }
}
