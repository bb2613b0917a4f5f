/** The library's stable in-place sort with a comparison function. */
module StableSort {

  type Comparison<!T> = (T, T) -> int

  ghost predicate Lawful<T>(cmp: Comparison<T>, a: T, b: T, c: T) {
    && (cmp(a, b) < 0 <==> cmp(b, a) > 0) && (cmp(b, a) < 0 <==> cmp(a, b) > 0)
    && (cmp(a, b) <= 0 && cmp(b, c) <= 0 ==> cmp(a, c) <= 0)
  }

  /** Antisymmetric up to ties, and transitive. */
  ghost predicate IsOrder<T(!new)>(cmp: Comparison<T>) { forall a, b, c :: Lawful(cmp, a, b, c) }

  ghost predicate Ordered<T>(cmp: Comparison<T>, s: seq<T>) {
    forall i, j :: 0 <= i < j < |s| ==> cmp(s[i], s[j]) <= 0
  }

  /** `x` goes behind everything it does not precede. */
  function Inserted<T>(cmp: Comparison<T>, s: seq<T>, x: T): (r: seq<T>)
    ensures |r| == |s| + 1
  {
    if s == [] || cmp(x, s[|s| - 1]) >= 0 then s + [x]
    else Inserted(cmp, s[..|s| - 1], x) + [s[|s| - 1]]
  }

  function Sorted<T>(cmp: Comparison<T>, s: seq<T>): (r: seq<T>)
    ensures |r| == |s|
  {
    if s == [] then [] else Inserted(cmp, Sorted(cmp, s[..|s| - 1]), s[|s| - 1])
  }

  /** Each entry moves left past the entries it precedes. */
  method SortStable<T>(a: array<T>, cmp: Comparison<T>)
    modifies a
    ensures a[..] == Sorted(cmp, old(a[..]))
  {
    ghost var was := a[..];
    for i := 0 to a.Length
      invariant a[..i] == Sorted(cmp, was[..i])
      invariant a[i..] == was[i..]
    {
      Slices(was, i);
      assert a[i] == a[i..][0];
      MoveLeft(a, cmp, i);
      assert a[i + 1..] == was[i + 1..];
    }
    assert was[..a.Length] == was && a[..a.Length] == a[..];
  }

  lemma Slices<T>(s: seq<T>, i: nat)
    requires i < |s|
    ensures s[i..][0] == s[i] && s[i..][1..] == s[i + 1..]
    ensures s[..i + 1][..i] == s[..i] && s[..i + 1][i] == s[i]
  {
  }

  method MoveLeft<T>(a: array<T>, cmp: Comparison<T>, i: nat)
    requires i < a.Length
    modifies a
    ensures a[..i + 1] == Inserted(cmp, old(a[..i]), old(a[i])) && a[i + 1..] == old(a[i + 1..])
  {
    ghost var s, x := a[..i], a[i];
    var j := i;
    while j > 0 && cmp(a[j], a[j - 1]) < 0
      invariant 0 <= j <= i && a[j] == x
      invariant forall k :: 0 <= k < j ==> a[k] == s[k]
      invariant forall k :: j < k <= i ==> a[k] == s[k - 1]
      invariant forall k :: j <= k < i ==> cmp(x, s[k]) < 0
      invariant forall k :: i < k < a.Length ==> a[k] == old(a[k])
    {
      a[j], a[j - 1] := a[j - 1], a[j];
      j := j - 1;
    }
    Shifted(s, a[..i + 1], x, j);
    InsertedAt(cmp, s, x, j);
  }

  lemma Shifted<T>(s: seq<T>, r: seq<T>, x: T, j: nat)
    requires j <= |s| && |r| == |s| + 1 && r[j] == x
    requires forall k :: 0 <= k < j ==> r[k] == s[k]
    requires forall k :: j < k <= |s| ==> r[k] == s[k - 1]
    ensures r == s[..j] + [x] + s[j..]
  {
  }

  lemma {:induction false} InsertedAt<T>(cmp: Comparison<T>, s: seq<T>, x: T, j: nat)
    requires j <= |s| && (j > 0 ==> cmp(x, s[j - 1]) >= 0)
    requires forall k :: j <= k < |s| ==> cmp(x, s[k]) < 0
    ensures Inserted(cmp, s, x) == s[..j] + [x] + s[j..]
  {
    if j < |s| {
      InsertedAt(cmp, s[..|s| - 1], x, j);
      Pieces(s, x, j);
    } else {
      Ends(s, x);
    }
  }

  lemma Pieces<T>(s: seq<T>, x: T, j: nat)
    requires j < |s|
    ensures var n := |s| - 1; s[..n][..j] + [x] + s[..n][j..] + [s[n]] == s[..j] + [x] + s[j..]
  {
  }

  lemma Ends<T>(s: seq<T>, x: T)
    ensures s[..|s|] + [x] + s[|s|..] == s + [x]
  {
  }

  lemma ButLast<T>(s: seq<T>)
    requires s != []
    ensures s == s[..|s| - 1] + [s[|s| - 1]]
    ensures multiset(s) == multiset(s[..|s| - 1]) + multiset{s[|s| - 1]}
  {
    assert s == s[..|s| - 1] + [s[|s| - 1]];
  }

  lemma AppendOrdered<T(!new)>(cmp: Comparison<T>, s: seq<T>, x: T)
    requires IsOrder(cmp) && Ordered(cmp, s) && (s == [] || cmp(s[|s| - 1], x) <= 0)
    ensures Ordered(cmp, s + [x])
  {
    forall i | 0 <= i < |s| ensures cmp(s[i], x) <= 0 {
      assert Lawful(cmp, s[i], s[|s| - 1], x);
    }
  }

  lemma {:induction false} InsertedMembers<T>(cmp: Comparison<T>, s: seq<T>, x: T)
    ensures multiset(Inserted(cmp, s, x)) == multiset(s) + multiset{x}
  {
    if s != [] && cmp(x, s[|s| - 1]) < 0 {
      InsertedMembers(cmp, s[..|s| - 1], x);
      ButLast(s);
    }
  }

  lemma {:induction false} InsertedOrdered<T(!new)>(cmp: Comparison<T>, s: seq<T>, x: T)
    requires IsOrder(cmp) && Ordered(cmp, s)
    ensures Ordered(cmp, Inserted(cmp, s, x))
    ensures Inserted(cmp, s, x)[|s|] == x || (s != [] && Inserted(cmp, s, x)[|s|] == s[|s| - 1])
  {
    if s != [] {
      var rest, y := s[..|s| - 1], s[|s| - 1];
      assert Lawful(cmp, x, y, x);
      if cmp(x, y) >= 0 {
        AppendOrdered(cmp, s, x);
      } else {
        InsertedOrdered(cmp, rest, x);
        AppendOrdered(cmp, Inserted(cmp, rest, x), y);
      }
    }
  }

  /** The result is an ordered permutation of the input. */
  lemma {:induction false} SortedIsOrdered<T(!new)>(cmp: Comparison<T>, s: seq<T>)
    requires IsOrder(cmp)
    ensures Ordered(cmp, Sorted(cmp, s)) && multiset(Sorted(cmp, s)) == multiset(s)
  {
    if s != [] {
      SortedIsOrdered(cmp, s[..|s| - 1]);
      InsertedOrdered(cmp, Sorted(cmp, s[..|s| - 1]), s[|s| - 1]);
      InsertedMembers(cmp, Sorted(cmp, s[..|s| - 1]), s[|s| - 1]);
      ButLast(s);
    }
  }

  /** The entries the comparison cannot tell from `z`, in order. */
  function Ties<T>(cmp: Comparison<T>, z: T, s: seq<T>): seq<T> {
    if s == [] then []
    else Ties(cmp, z, s[..|s| - 1]) + if cmp(z, s[|s| - 1]) == 0 then [s[|s| - 1]] else []
  }

  lemma TiesNext<T>(cmp: Comparison<T>, z: T, s: seq<T>, x: T)
    ensures Ties(cmp, z, s + [x]) == Ties(cmp, z, s) + if cmp(z, x) == 0 then [x] else []
  {
    assert (s + [x])[..|s|] == s;
  }

  lemma {:induction false} TiesInserted<T(!new)>(cmp: Comparison<T>, z: T, s: seq<T>, x: T)
    requires IsOrder(cmp)
    ensures Ties(cmp, z, Inserted(cmp, s, x)) == Ties(cmp, z, s) + if cmp(z, x) == 0 then [x] else []
  {
    TiesNext(cmp, z, s, x);
    if s != [] && cmp(x, s[|s| - 1]) < 0 {
      var rest, y := s[..|s| - 1], s[|s| - 1];
      TiesInserted(cmp, z, rest, x);
      TiesNext(cmp, z, Inserted(cmp, rest, x), y);
      assert Lawful(cmp, y, z, x) && Lawful(cmp, x, y, z);
    }
  }

  /** The sort is stable. */
  lemma {:induction false} Stable<T(!new)>(cmp: Comparison<T>, z: T, s: seq<T>)
    requires IsOrder(cmp)
    ensures Ties(cmp, z, Sorted(cmp, s)) == Ties(cmp, z, s)
  {
    if s != [] {
      Stable(cmp, z, s[..|s| - 1]);
      TiesInserted(cmp, z, Sorted(cmp, s[..|s| - 1]), s[|s| - 1]);
    }
  }

  /** The comparison tells the members of `m` apart. */
  ghost predicate Separates<T(!new)>(cmp: Comparison<T>, m: multiset<T>) {
    forall x, y :: x in m && y in m && cmp(x, y) == 0 ==> x == y
  }

  lemma LastIsGreatest<T(!new)>(cmp: Comparison<T>, s: seq<T>, x: T)
    requires IsOrder(cmp) && Ordered(cmp, s) && x in s
    ensures cmp(x, s[|s| - 1]) <= 0
  {
    assert Lawful(cmp, x, x, x);
  }

  lemma SameLast<T(!new)>(cmp: Comparison<T>, a: seq<T>, b: seq<T>)
    requires IsOrder(cmp) && Ordered(cmp, a) && Ordered(cmp, b) && Separates(cmp, multiset(a))
    requires multiset(a) == multiset(b) && a != [] && b != []
    ensures a[|a| - 1] == b[|b| - 1]
  {
    var x, y := a[|a| - 1], b[|b| - 1];
    assert x in multiset(b) && y in multiset(a);
    LastIsGreatest(cmp, a, y);
    LastIsGreatest(cmp, b, x);
    assert Lawful(cmp, x, y, x);
  }

  lemma PrefixOrdered<T(!new)>(cmp: Comparison<T>, s: seq<T>)
    requires s != [] && Ordered(cmp, s) && Separates(cmp, multiset(s))
    ensures Ordered(cmp, s[..|s| - 1]) && Separates(cmp, multiset(s[..|s| - 1]))
  {
    ButLast(s);
  }

  lemma Cancel<T>(a: seq<T>, b: seq<T>)
    requires multiset(a) == multiset(b) && a != [] && b != [] && a[|a| - 1] == b[|b| - 1]
    ensures multiset(a[..|a| - 1]) == multiset(b[..|b| - 1])
  {
    ButLast(a);
    ButLast(b);
    assert multiset(a[..|a| - 1]) == multiset(a) - multiset{a[|a| - 1]};
  }

  lemma EmptyTogether<T>(a: seq<T>, b: seq<T>)
    requires multiset(a) == multiset(b)
    ensures a == [] <==> b == []
  {
    assert |multiset(a)| == |a| && |multiset(b)| == |b|;
  }

  lemma Rejoin<T>(a: seq<T>, b: seq<T>)
    requires a != [] && b != [] && a[..|a| - 1] == b[..|b| - 1] && a[|a| - 1] == b[|b| - 1]
    ensures a == b
  {
    ButLast(a);
    ButLast(b);
  }

  /** There is only one way to order entries that the comparison tells apart. */
  lemma {:induction false} OrderedUnique<T(!new)>(cmp: Comparison<T>, a: seq<T>, b: seq<T>)
    requires IsOrder(cmp) && Ordered(cmp, a) && Ordered(cmp, b) && Separates(cmp, multiset(a))
    requires multiset(a) == multiset(b)
    ensures a == b
    decreases |a|
  {
    EmptyTogether(a, b);
    if a != [] {
      SameLast(cmp, a, b);
      Cancel(a, b);
      PrefixOrdered(cmp, a);
      PrefixOrdered(cmp, b);
      OrderedUnique(cmp, a[..|a| - 1], b[..|b| - 1]);
      Rejoin(a, b);
    }
  }
}
