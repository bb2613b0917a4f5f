/** The display order of tasks. */
module TaskSort {
  import opened Common
  import opened Fsm
  import opened TaskRow
  import StableSort

  // ---- Text order. ----

  function CompareText(a: string, b: string): (c: int)
    ensures -1 <= c <= 1 && (c == 0 <==> a == b)
  {
    if a == "" then if b == "" then 0 else -1
    else if b == "" then 1
    else if a[0] != b[0] then if a[0] < b[0] then -1 else 1
    else
      assert a == [a[0]] + a[1..] && b == [b[0]] + b[1..];
      CompareText(a[1..], b[1..])
  }

  lemma {:induction false} TextOrder(a: string, b: string, c: string)
    ensures CompareText(a, b) == -CompareText(b, a)
    ensures CompareText(a, b) < 0 && CompareText(b, c) < 0 ==> CompareText(a, c) < 0
  {
    if a != "" && b != "" && c != "" {
      TextOrder(a[1..], b[1..], c[1..]);
    } else if a != "" && b != "" {
      TextOrder(a[1..], b[1..], "");
    }
  }

  // ---- The comparator. ----

  predicate IsActive(s: Status) {
    s.Planning? || s.PlanPendingApproval? || s.Working? || s.Verifying? || s.NeedsClarification? || s.Help?
  }

  /** The latest stage that was reached: done, else verify end, else work end, else plan end. */
  function FallbackTime(t: Task): Time {
    if t.doneAt != 0 then t.doneAt
    else if t.verify.endAt != 0 then t.verify.endAt
    else if t.work.endAt != 0 then t.work.endAt
    else t.plan.endAt
  }

  /** All the order looks at. */
  datatype Rank = Rank(active: bool, time: Time, id: string)

  function RankOf(t: Task): Rank { Rank(IsActive(t.status), FallbackTime(t), t.id) }

  function CompareRanks(a: Rank, b: Rank): int {
    if a.active != b.active then if a.active then -1 else 1
    else if a.active then CompareText(a.id, b.id)
    else if a.time != b.time then if a.time > b.time then -1 else 1
    else -CompareText(a.id, b.id)
  }

  function Compare(a: Task, b: Task): int { CompareRanks(RankOf(a), RankOf(b)) }

  lemma RankOrder(a: Rank, b: Rank, c: Rank)
    ensures CompareRanks(a, b) == -CompareRanks(b, a)
    ensures CompareRanks(a, b) <= 0 && CompareRanks(b, c) <= 0 ==> CompareRanks(a, c) <= 0
    ensures CompareRanks(a, b) <= 0 && CompareRanks(b, c) < 0 ==> CompareRanks(a, c) < 0
    ensures CompareRanks(a, b) < 0 && CompareRanks(b, c) <= 0 ==> CompareRanks(a, c) < 0
  {
    TextOrder(a.id, b.id, c.id);
    TextOrder(c.id, b.id, a.id);
    TextOrder(a.id, c.id, b.id);
    TextOrder(b.id, c.id, a.id);
  }

  /** A total order on tasks with distinct ids. */
  lemma TotalOrder(a: Task, b: Task, c: Task)
    ensures Compare(a, b) == -Compare(b, a)
    ensures Compare(a, b) == 0 ==> a.id == b.id
    ensures Compare(a, b) <= 0 && Compare(b, c) <= 0 ==> Compare(a, c) <= 0
    ensures Compare(a, b) <= 0 && Compare(b, c) < 0 ==> Compare(a, c) < 0
    ensures Compare(a, b) < 0 && Compare(b, c) <= 0 ==> Compare(a, c) < 0
  {
    RankOrder(RankOf(a), RankOf(b), RankOf(c));
  }

  // ---- The sort. ----

  lemma CompareIsOrder()
    ensures StableSort.IsOrder(Compare)
  {
    forall a, b, c ensures StableSort.Lawful(Compare, a, b, c) {
      TotalOrder(a, b, c);
    }
  }

  function SortedTasks(s: seq<Task>): seq<Task> { StableSort.Sorted(Compare, s) }

  method SortTasks(a: array<Task>)
    modifies a
    ensures a[..] == SortedTasks(old(a[..]))
  {
    StableSort.SortStable(a, Compare);
  }

  /** No two different tasks share an id. */
  ghost predicate DistinctIds(s: seq<Task>) { forall t, u :: t in s && u in s && t.id == u.id ==> t == u }

  /**
   * The display order does not depend on the order the rows came in, nor on how the library sorts:
   * any ordered permutation of the rows is the one shown.
   */
  lemma OrderOfInputIrrelevant(s: seq<Task>, t: seq<Task>)
    requires DistinctIds(s) && multiset(s) == multiset(t)
    ensures SortedTasks(s) == SortedTasks(t)
    ensures StableSort.Ordered(Compare, t) ==> SortedTasks(s) == t
  {
    CompareIsOrder();
    StableSort.SortedIsOrdered(Compare, s);
    StableSort.SortedIsOrdered(Compare, t);
    assert StableSort.Separates(Compare, multiset(s)) by {
      forall x, y | x in multiset(s) && y in multiset(s) && Compare(x, y) == 0 ensures x == y {
        TotalOrder(x, y, x);
        assert x in s && y in s;
      }
    }
    StableSort.OrderedUnique(Compare, SortedTasks(s), SortedTasks(t));
    if StableSort.Ordered(Compare, t) {
      StableSort.OrderedUnique(Compare, SortedTasks(s), t);
    }
  }

  /** What the reader of the list sees: a permutation of the rows, the active ones on top. */
  lemma DisplayOrder(s: seq<Task>)
    ensures multiset(SortedTasks(s)) == multiset(s)
    ensures forall i, j :: 0 <= i < j < |s| ==> Shown(SortedTasks(s)[i], SortedTasks(s)[j])
  {
    CompareIsOrder();
    StableSort.SortedIsOrdered(Compare, s);
    forall i, j | 0 <= i < j < |s| ensures Shown(SortedTasks(s)[i], SortedTasks(s)[j]) {
      assert Compare(SortedTasks(s)[i], SortedTasks(s)[j]) <= 0;
      ShownIs(SortedTasks(s)[i], SortedTasks(s)[j]);
    }
  }

  /** The statuses of tasks still in flight or waiting for their user. */
  const IN_FLIGHT := {Planning, PlanPendingApproval, Working, Verifying, NeedsClarification, Help}

  /** `at` is when the latest stage that was reached ended: a stage counts only when no later one was. */
  predicate ReachedAt(t: Task, at: Time) {
    || (t.doneAt != 0 && at == t.doneAt)
    || (t.doneAt == 0 && t.verify.endAt != 0 && at == t.verify.endAt)
    || (t.doneAt == 0 && t.verify.endAt == 0 && t.work.endAt != 0 && at == t.work.endAt)
    || (t.doneAt == 0 && t.verify.endAt == 0 && t.work.endAt == 0 && at == t.plan.endAt)
  }

  /** Position `k` is where two texts part: both agree before it, and there `a` ends or has the smaller character. */
  predicate PartsAt(a: string, b: string, k: nat) {
    k <= |a| && k < |b| && (forall i :: 0 <= i < k ==> a[i] == b[i]) && (k == |a| || a[k] < b[k])
  }

  ghost predicate TextBefore(a: string, b: string) { exists k: nat :: PartsAt(a, b, k) }

  lemma PartsOneOn(a: string, b: string, k: nat)
    requires a != "" && b != "" && a[0] == b[0]
    ensures PartsAt(a, b, k + 1) <==> PartsAt(a[1..], b[1..], k)
    ensures !PartsAt(a, b, 0)
  {
    if PartsAt(a, b, k + 1) {
      assert forall i :: 0 <= i < k ==> a[1..][i] == a[i + 1] == b[i + 1] == b[1..][i];
    }
    if PartsAt(a[1..], b[1..], k) {
      assert forall i :: 0 < i < k + 1 ==> a[i] == a[1..][i - 1] == b[1..][i - 1] == b[i];
    }
  }

  lemma {:induction false} TextBeforeIs(a: string, b: string)
    ensures CompareText(a, b) < 0 <==> TextBefore(a, b)
    decreases |a|
  {
    if a != "" && b != "" && a[0] == b[0] {
      TextBeforeIs(a[1..], b[1..]);
      if j: nat :| PartsAt(a, b, j) {
        PartsOneOn(a, b, if j > 0 then j - 1 else 0);
        assert PartsAt(a[1..], b[1..], j - 1);
      }
      if k: nat :| PartsAt(a[1..], b[1..], k) {
        PartsOneOn(a, b, k);
      }
    } else if b != "" && (a == "" || a[0] < b[0]) {
      assert PartsAt(a, b, 0);
    }
  }

  /**
   * How a task stands to one further down the list: tasks in flight come first, by ascending id; of
   * the others the one whose latest stage ended later comes first, and of equals the larger id.
   */
  ghost predicate Shown(above: Task, below: Task) {
    && (below.status in IN_FLIGHT ==> above.status in IN_FLIGHT && (above.id == below.id || TextBefore(above.id, below.id)))
    && (above.status !in IN_FLIGHT && below.status !in IN_FLIGHT ==>
          forall x, y :: ReachedAt(above, x) && ReachedAt(below, y) ==>
            x > y || (x == y && (above.id == below.id || TextBefore(below.id, above.id))))
  }

  lemma ShownIs(above: Task, below: Task)
    requires Compare(above, below) <= 0
    ensures Shown(above, below)
  {
    TextBeforeIs(above.id, below.id);
    TextBeforeIs(below.id, above.id);
    TextOrder(above.id, below.id, below.id);
  }
}
