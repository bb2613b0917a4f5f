/** The string helpers of the standard library that the other modules rely on. */
module Text {

  /** Unicode white space. */
  predicate IsSpace(c: char) {
    || '\t' <= c <= '\r' || c == ' ' || c == '\U{85}' || c == '\U{A0}' || c == '\U{1680}'
    || '\U{2000}' <= c <= '\U{200A}' || c == '\U{2028}' || c == '\U{2029}' || c == '\U{202F}' || c == '\U{205F}' || c == '\U{3000}'
  }

  predicate AllSpace(s: string) { forall i :: 0 <= i < |s| ==> IsSpace(s[i]) }

  predicate Contains(s: string, sub: string) {
    exists i | 0 <= i <= |s| :: sub <= s[i..]
  }

  function TrimLeft(s: string): (r: string)
    ensures r == [] || !IsSpace(r[0])
    ensures |r| <= |s| && r == s[|s| - |r|..] && AllSpace(s[..|s| - |r|])
  {
    if s == [] || !IsSpace(s[0]) then s
    else
      var r := TrimLeft(s[1..]);
      assert s[..|s| - |r|] == [s[0]] + s[1..][..|s[1..]| - |r|];
      r
  }

  function TrimRight(s: string): (r: string)
    ensures r == [] || !IsSpace(r[|r| - 1])
    ensures r <= s && AllSpace(s[|r|..])
  {
    if s == [] || !IsSpace(s[|s| - 1]) then s
    else
      var r := TrimRight(s[..|s| - 1]);
      assert s[|r|..] == s[..|s| - 1][|r|..] + [s[|s| - 1]];
      r
  }

  function TrimSpace(s: string): string { TrimRight(TrimLeft(s)) }

  /** A string without surrounding white space. */
  predicate Tight(s: string) { s != [] ==> !IsSpace(s[0]) && !IsSpace(s[|s| - 1]) }

  lemma {:induction false} TrimLeftSpace(a: string, s: string)
    requires AllSpace(a)
    ensures TrimLeft(a + s) == TrimLeft(s)
    decreases |a|
  {
    if a == [] {
      assert a + s == s;
    } else {
      assert (a + s)[1..] == a[1..] + s;
      TrimLeftSpace(a[1..], s);
    }
  }

  lemma {:induction false} TrimRightSpace(s: string, b: string)
    requires AllSpace(b)
    ensures TrimRight(s + b) == TrimRight(s)
    decreases |b|
  {
    if b == [] {
      assert s + b == s;
    } else {
      var n := |b| - 1;
      assert (s + b)[..|s + b| - 1] == s + b[..n];
      TrimRightSpace(s, b[..n]);
    }
  }

  lemma Regroup<T>(a: seq<T>, b: seq<T>, c: seq<T>)
    ensures a + b + c == a + (b + c)
  {
  }

  lemma {:induction false} TrimLeftBlank(s: string)
    requires AllSpace(s)
    ensures TrimLeft(s) == ""
  {
    if s != "" {
      TrimLeftBlank(s[1..]);
    }
  }

  lemma TrimTail(s: string, b: string, x: string)
    requires AllSpace(b) && Tight(s) && x == s + b
    ensures TrimSpace(x) == s
  {
    if s == "" {
      assert x == b;
      TrimLeftBlank(x);
    } else {
      TightFront(s, b);
      TrimRightSpace(s, b);
    }
  }

  /** Trimming gives back the tight middle of a padded string. */
  lemma TrimPadded(a: string, s: string, b: string)
    requires AllSpace(a) && AllSpace(b) && Tight(s)
    ensures TrimSpace(a + s + b) == s
  {
    Regroup(a, s, b);
    TrimLeftSpace(a, s + b);
    TrimTail(s, b, s + b);
  }

  lemma TightFront(s: string, b: string)
    requires s != [] && Tight(s)
    ensures TrimLeft(s + b) == s + b && TrimRight(s) == s
  {
    assert (s + b)[0] == s[0];
  }

  lemma LeftPart(s: string) returns (a: string)
    ensures s == a + TrimLeft(s) && AllSpace(a)
  {
    a := s[..|s| - |TrimLeft(s)|];
    assert s == a + s[|a|..];
  }

  lemma RightPart(s: string) returns (b: string)
    ensures s == TrimRight(s) + b && AllSpace(b)
  {
    var n := |TrimRight(s)|;
    b := s[n..];
    assert s == s[..n] + b;
  }

  /** A string is white space, its trimmed middle, white space. */
  lemma TrimParts(s: string) returns (a: string, b: string)
    ensures s == a + TrimSpace(s) + b && AllSpace(a) && AllSpace(b)
  {
    a := LeftPart(s);
    b := RightPart(TrimLeft(s));
    Regroup(a, TrimSpace(s), b);
  }

  lemma TrimTight(s: string)
    ensures Tight(TrimSpace(s))
  {
    var l := TrimLeft(s);
    var m := TrimRight(l);
    if m != [] {
      assert m[0] == l[0];
    }
  }

  lemma TightIffTrimmed(s: string)
    ensures TrimSpace(s) == s <==> Tight(s)
  {
    TrimTight(s);
    if Tight(s) {
      assert "" + s + "" == s;
      TrimPadded("", s, "");
    }
  }

  lemma TrimBlank(s: string)
    requires AllSpace(s)
    ensures TrimSpace(s) == ""
  {
    assert s + "" + "" == s;
    TrimPadded(s, "", "");
  }
}
