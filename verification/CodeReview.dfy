/** The review file of a code-review round and the validator that runs after the planner. */
module CodeReview {
  import opened Common
  import PrFetch
  import PrItems
  import PrFeedback

  datatype Item = Item(
    sourceID: string, kind: PrItems.Kind, threadID: string, author: string, body: string,
    path: string, line: int, isOutdated: bool, hasJReply: bool,
    decision: string, reason: string, reply: string, planRef: string)

  datatype ReviewFile = ReviewFile(decision: string, summary: string, items: seq<Item>)

  const ACCEPTED := "accepted"
  const ITEM_DECISIONS := {"", ACCEPTED, "rejected", "clarification", "non_actionable"}

  const CHANGES_NEEDED := "changes_needed"
  const CLARIFICATION_NEEDED := "clarification_needed"
  const TOP_DECISIONS := {"", CHANGES_NEEDED, "no_changes_needed", CLARIFICATION_NEEDED}

  const REPLY_MAX_RUNES := 280

  datatype ItemFault = InvalidDecision | MissingDecision | MissingPlanRef | LongReply

  datatype Fault =
    | InvalidTop(decision: string) | MissingTop
    | MissingID(id: string) | DuplicateID(id: string, count: nat) | InventedID(id: string)
    | FaultyItem(at: nat, why: ItemFault)

  function Ids(items: seq<Item>): (ids: seq<string>)
    ensures |ids| == |items|
  {
    seq(|items|, i requires 0 <= i < |items| => items[i].sourceID)
  }

  /** A decided item: an allowed decision, a plan reference when accepted, a reply that fits. */
  predicate Decided(it: Item) {
    && it.decision in ITEM_DECISIONS && it.decision != ""
    && (it.decision == ACCEPTED ==> it.planRef != "")
    && |it.reply| <= REPLY_MAX_RUNES
  }

  predicate TopDecided(f: ReviewFile) { f.decision in TOP_DECISIONS && f.decision != "" }

  /** The ids are a duplicate-free enumeration of the snapshot. */
  ghost predicate Enumerates(items: seq<Item>, original: set<string>) {
    Distinct(Ids(items)) && (set id | id in Ids(items)) == original
  }

  /** What the planner owes. */
  ghost predicate Complete(f: ReviewFile, original: set<string>) {
    TopDecided(f) && Enumerates(f.items, original) && forall i :: 0 <= i < |f.items| ==> Decided(f.items[i])
  }

  lemma {:induction false} DistinctCounts(s: seq<string>)
    ensures Distinct(s) <==> forall x :: multiset(s)[x] <= 1
  {
    if s != [] {
      var n := |s| - 1;
      DistinctCounts(s[..n]);
      assert s == s[..n] + [s[n]];
      var ms := multiset(s[..n]);
      assert multiset(s) == ms + multiset{s[n]};
      assert ms[s[n]] > 0 <==> s[n] in s[..n];
      if Distinct(s[..n]) {
        assert Distinct(s) <==> s[n] !in s[..n];
        assert multiset(s)[s[n]] == ms[s[n]] + 1;
        assert forall x :: x != s[n] ==> multiset(s)[x] == ms[x];
      } else {
        var x :| ms[x] > 1;
        assert multiset(s)[x] > 1;
      }
    }
  }

  /** An enumeration has as many entries as the snapshot has ids. */
  lemma {:induction false} EnumerationSize(s: seq<string>)
    ensures Distinct(s) ==> |set id | id in s| == |s|
  {
    if s != [] && Distinct(s) {
      var n := |s| - 1;
      EnumerationSize(s[..n]);
      assert s[n] !in s[..n];
      assert (set id | id in s) == (set id | id in s[..n]) + {s[n]};
    }
  }

  /** The ids of a file, as the snapshot taken before the planner runs. */
  method SnapshotSourceIDs(items: seq<Item>) returns (out: set<string>)
    ensures out == set id | id in Ids(items)
  {
    out := {};
    for i := 0 to |items|
      invariant forall id :: id in out <==> id in Ids(items)[..i]
    {
      out := out + {items[i].sourceID};
      assert Ids(items)[..i + 1] == Ids(items)[..i] + [items[i].sourceID];
    }
    assert Ids(items)[..|items|] == Ids(items);
  }

  /** What is wrong with an item: the first of the four rules that it breaks. */
  predicate Wrong(it: Item, why: ItemFault) {
    var known := it.decision in {"accepted", "rejected", "clarification", "non_actionable"};
    match why
    case InvalidDecision => !known && it.decision != ""
    case MissingDecision => it.decision == ""
    case MissingPlanRef => it.decision == "accepted" && it.planRef == ""
    case LongReply => known && (it.decision == "accepted" ==> it.planRef != "") && |it.reply| > 280
  }

  method ValidateItem(it: Item) returns (fault: Option<ItemFault>)
    ensures fault == None <==> Decided(it)
    ensures forall why: ItemFault :: fault == Some(why) <==> Wrong(it, why)
  {
    if it.decision !in ITEM_DECISIONS {
      return Some(InvalidDecision);
    }
    if it.decision == "" {
      return Some(MissingDecision);
    }
    if it.decision == ACCEPTED && it.planRef == "" {
      return Some(MissingPlanRef);
    }
    if it.reply != "" && |it.reply| > REPLY_MAX_RUNES {
      return Some(LongReply);
    }
    return None;
  }

  /** The per-id counts of the file. */
  ghost predicate Counts(counts: map<string, nat>, ids: seq<string>) {
    && (forall id :: id in counts <==> id in ids)
    && forall id :: id in counts ==> counts[id] == multiset(ids)[id]
  }

  method CountIds(items: seq<Item>) returns (counts: map<string, nat>)
    ensures Counts(counts, Ids(items))
  {
    counts := map[];
    for i := 0 to |items|
      invariant Counts(counts, Ids(items)[..i])
    {
      var id := items[i].sourceID;
      assert Ids(items)[..i + 1] == Ids(items)[..i] + [id];
      counts := counts[id := 1 + if id in counts then counts[id] else 0];
    }
    assert Ids(items)[..|items|] == Ids(items);
  }

  ghost predicate IdFault(fault: Fault, ids: seq<string>, original: set<string>) {
    match fault
    case MissingID(id) => id in original && id !in ids
    case DuplicateID(id, n) => id in original && n == multiset(ids)[id] && n > 1
    case InventedID(id) => id in ids && id !in original && forall o :: o in original ==> multiset(ids)[o] == 1
    case _ => false
  }

  /** What a reported fault says about the file, given that every earlier check passed. */
  ghost predicate Truthful(fault: Fault, f: ReviewFile, original: set<string>) {
    match fault
    case InvalidTop(d) => d == f.decision && d !in TOP_DECISIONS
    case MissingTop => f.decision == ""
    case MissingID(_) => TopDecided(f) && IdFault(fault, Ids(f.items), original)
    case DuplicateID(_, _) => TopDecided(f) && IdFault(fault, Ids(f.items), original)
    case InventedID(_) => TopDecided(f) && IdFault(fault, Ids(f.items), original)
    case FaultyItem(at, why) =>
      && TopDecided(f) && Enumerates(f.items, original)
      && at < |f.items| && Wrong(f.items[at], why) && forall i :: 0 <= i < at ==> Decided(f.items[i])
  }

  /** Row by row: no row is invented, none of the snapshot is missing, and none is there twice. */
  lemma EnumeratesByRow(items: seq<Item>, original: set<string>)
    ensures Enumerates(items, original) <==>
      && (forall i :: 0 <= i < |items| ==> items[i].sourceID in original)
      && (forall id :: id in original ==> exists i :: 0 <= i < |items| && items[i].sourceID == id)
      && (forall i, j :: 0 <= i < j < |items| ==> items[i].sourceID != items[j].sourceID)
  {
    var ids := Ids(items);
    assert forall i :: 0 <= i < |items| ==> ids[i] == items[i].sourceID && ids[i] in ids;
    var all := set id | id in ids;
    if all == original {
      forall id | id in original
        ensures exists i :: 0 <= i < |items| && items[i].sourceID == id
      {
        var i :| 0 <= i < |ids| && ids[i] == id;
        assert items[i].sourceID == id;
      }
    }
  }

  /** The two scans over the id counts: every id of the snapshot once, and no other. */
  method CheckIds(items: seq<Item>, original: set<string>) returns (fault: Option<Fault>)
    ensures fault == None <==> Enumerates(items, original)
    ensures fault == None <==>
      && (forall i :: 0 <= i < |items| ==> items[i].sourceID in original)
      && (forall id :: id in original ==> exists i :: 0 <= i < |items| && items[i].sourceID == id)
      && (forall i, j :: 0 <= i < j < |items| ==> items[i].sourceID != items[j].sourceID)
    ensures fault.Some? ==> IdFault(fault.value, Ids(items), original)
  {
    var counts := CountIds(items);
    DistinctCounts(Ids(items));
    EnumeratesByRow(items, original);
    var todo := original;
    while todo != {}
      invariant todo <= original
      invariant forall id :: id in original - todo ==> multiset(Ids(items))[id] == 1
    {
      var id :| id in todo;
      if id !in counts {
        return Some(MissingID(id));
      }
      if counts[id] > 1 {
        return Some(DuplicateID(id, counts[id]));
      }
      todo := todo - {id};
    }
    var left := counts.Keys;
    while left != {}
      invariant left <= counts.Keys
      invariant forall id :: id in counts && id !in left ==> id in original
    {
      var id :| id in left;
      if id !in original {
        return Some(InventedID(id));
      }
      left := left - {id};
    }
    CountedEnumerates(items, original);
    return None;
  }

  /** The validator after the planner: it accepts exactly the complete files, and a fault is what it says. */
  method ValidatePost(f: ReviewFile, original: set<string>) returns (fault: Option<Fault>)
    ensures fault == None <==> Complete(f, original)
    ensures fault.Some? ==> Truthful(fault.value, f, original)
    ensures fault == Some(MissingTop) <==> f.decision == ""
    ensures fault == Some(InvalidTop(f.decision)) <==>
      f.decision !in {"", "changes_needed", "no_changes_needed", "clarification_needed"}
  {
    if f.decision !in TOP_DECISIONS {
      return Some(InvalidTop(f.decision));
    }
    if f.decision == "" {
      return Some(MissingTop);
    }
    fault := CheckIds(f.items, original);
    if fault.Some? {
      return;
    }
    for i := 0 to |f.items|
      invariant forall k :: 0 <= k < i ==> Decided(f.items[k])
    {
      var why := ValidateItem(f.items[i]);
      if why.Some? {
        return Some(FaultyItem(i, why.value));
      }
    }
    return None;
  }

  /** The two map scans together establish the enumeration. */
  lemma CountedEnumerates(items: seq<Item>, original: set<string>)
    requires forall id :: id in original ==> multiset(Ids(items))[id] == 1
    requires forall id :: id in Ids(items) ==> id in original
    ensures Enumerates(items, original)
  {
    DistinctCounts(Ids(items));
    forall x ensures multiset(Ids(items))[x] <= 1 {
      if x in multiset(Ids(items)) {
        assert x in Ids(items);
      }
    }
    forall id | id in original ensures id in Ids(items) {
      assert id in multiset(Ids(items));
    }
  }

  /** The fetched feedback as undecided rows of the review file. */
  function Projected(it: PrItems.Item): Item {
    Item(it.sourceID, it.kind, it.threadID, it.author, it.body, it.path, it.line, it.isOutdated, it.hasJReply,
         "", "", "", "")
  }

  function ProjectedAll(fetched: seq<PrItems.Item>): (out: seq<Item>)
    ensures |out| == |fetched| && forall i :: 0 <= i < |out| ==> out[i] == Projected(fetched[i])
  {
    seq(|fetched|, i requires 0 <= i < |fetched| => Projected(fetched[i]))
  }

  /** A row with every field of the fetched item, and nothing decided yet. */
  predicate CarriesOver(it: PrItems.Item, row: Item) {
    && row.sourceID == it.sourceID && row.kind == it.kind && row.threadID == it.threadID && row.author == it.author
    && row.body == it.body && row.path == it.path && row.line == it.line && row.isOutdated == it.isOutdated
    && row.hasJReply == it.hasJReply
    && row.decision == "" && row.reason == "" && row.reply == "" && row.planRef == ""
  }

  method ItemsFromFetch(fetched: seq<PrItems.Item>) returns (out: seq<Item>)
    ensures out == ProjectedAll(fetched)
    ensures |out| == |fetched| && forall i :: 0 <= i < |out| ==> CarriesOver(fetched[i], out[i])
  {
    out := [];
    for i := 0 to |fetched|
      invariant |out| == i && forall k :: 0 <= k < i ==> out[k] == Projected(fetched[k])
    {
      out := out + [Projected(fetched[i])];
    }
  }

  /**
   * A planner that keeps the fetched rows in some order and decides each of them passes,
   * exactly when the fetched ids were distinct to begin with.
   */
  lemma PlannerPasses(fetched: seq<Item>, f: ReviewFile)
    requires multiset(Ids(f.items)) == multiset(Ids(fetched))
    requires TopDecided(f) && forall i :: 0 <= i < |f.items| ==> Decided(f.items[i])
    ensures Complete(f, set id | id in Ids(fetched)) <==> Distinct(Ids(fetched))
  {
    DistinctCounts(Ids(f.items));
    DistinctCounts(Ids(fetched));
    forall id ensures id in Ids(f.items) <==> id in Ids(fetched) {
      assert id in Ids(f.items) <==> id in multiset(Ids(f.items));
      assert id in Ids(fetched) <==> id in multiset(Ids(fetched));
    }
  }

  /** The undecided file written before the planner runs, and its snapshot. */
  datatype Fetched = Fetched(file: ReviewFile, snapshot: set<string>)

  datatype RoundError = FetchFailed(why: PrFetch.FetchError) | SaveFailed

  /** `res` is the fetched feedback, row by row and undecided, with the ids of its rows. */
  ghost predicate IsFetched(a: PrItems.Answers, c: PrItems.Run<PrItems.Comment>, t: PrItems.Run<PrItems.Thread>,
                            r: PrItems.Run<PrItems.Review>, res: Fetched)
  {
    && PrItems.Failure(a, c, t, r) == None && res.file.decision == ""
    && res.file.items == ProjectedAll(PrItems.Gathered(a, c, t, r))
    && res.snapshot == set id | id in Ids(res.file.items)
  }

  /** Fetch, project, save, snapshot. `saved` is the outcome of writing review.toml. */
  method FetchAndWriteReview(a: PrItems.Answers, saved: bool,
        ghost c: PrItems.Run<PrItems.Comment>, ghost t: PrItems.Run<PrItems.Thread>, ghost r: PrItems.Run<PrItems.Review>)
    returns (res: Result<Fetched, RoundError>)
    requires PrItems.Drains(a) ==> PrItems.RunsOut(a, c, t, r)
    ensures match PrItems.Failure(a, c, t, r)
      case Some(e) => res == Err(FetchFailed(e))
      case None => if saved then res.Ok? && IsFetched(a, c, t, r, res.value) else res == Err(SaveFailed)
  {
    var fetch := PrItems.FetchPR(a, c, t, r);
    if fetch.Err? {
      return Err(FetchFailed(fetch.error));
    }
    var items := ItemsFromFetch(fetch.value);
    if !saved {
      return Err(SaveFailed);
    }
    var snapshot := SnapshotSourceIDs(items);
    return Ok(Fetched(ReviewFile("", "", items), snapshot));
  }

  /** The service gave every comment, thread, thread comment and review its own node id. */
  ghost predicate NodesDistinct(first: PrItems.FirstPage,
        c: PrItems.Run<PrItems.Comment>, t: PrItems.Run<PrItems.Thread>, r: PrItems.Run<PrItems.Review>)
  {
    && PrItems.DistinctIds(PrItems.All(first.comments, c))
    && PrItems.DistinctThreads(PrItems.All(first.threads, t))
    && PrItems.DistinctComments(PrItems.All(first.threads, t))
    && PrItems.DistinctReviews(PrItems.All(first.reviews, r))
  }

  /**
   * From the service to the validator: with node ids of their own, the rows written are the naive
   * feedback of the pull request, and any planner that keeps them in some order and decides them passes.
   */
  lemma FetchedRoundPasses(a: PrItems.Answers, c: PrItems.Run<PrItems.Comment>, t: PrItems.Run<PrItems.Thread>,
                           r: PrItems.Run<PrItems.Review>, res: Fetched, f: ReviewFile)
    requires IsFetched(a, c, t, r, res) && NodesDistinct(a.first.value.value, c, t, r)
    requires multiset(Ids(f.items)) == multiset(Ids(res.file.items))
    requires TopDecided(f) && forall i :: 0 <= i < |f.items| ==> Decided(f.items[i])
    ensures var first := a.first.value.value;
      res.file.items == ProjectedAll(PrItems.Items(a.viewer.value, PrItems.All(first.comments, c),
                                                   PrItems.All(first.threads, t), PrItems.All(first.reviews, r)))
    ensures Complete(f, res.snapshot)
  {
    PrItems.GatheredNaive(a, c, t, r);
    ProjectedDistinct(PrItems.Gathered(a, c, t, r));
    PlannerPasses(res.file.items, f);
  }

  /**
   * End to end: the rows of the written file are the wanted comments, thread comments and reviews of
   * the pull request, in order, with their own fields, and undecided. With node ids of their own, a
   * conversation row or a thread row is marked as answered exactly when j's reply comes right after
   * its comment.
   */
  lemma WrittenRows(a: PrItems.Answers, c: PrItems.Run<PrItems.Comment>, t: PrItems.Run<PrItems.Thread>,
                    r: PrItems.Run<PrItems.Review>, res: Fetched)
    returns (items: seq<PrItems.Item>, from: seq<PrFeedback.Origin>)
    requires IsFetched(a, c, t, r, res)
    ensures PrFeedback.FetchTold(a, c, t, r, items, from) && |res.file.items| == |items|
    ensures forall k :: 0 <= k < |items| ==> CarriesOver(items[k], res.file.items[k])
    ensures NodesDistinct(a.first.value.value, c, t, r) ==>
      var first := a.first.value.value;
      forall k :: 0 <= k < |from| ==>
        Answers(a.viewer.value, PrItems.All(first.comments, c), PrItems.All(first.threads, t), from[k], res.file.items[k])
  {
    items := PrItems.Gathered(a, c, t, r);
    from := PrFeedback.GatheredTold(a, c, t, r);
    if NodesDistinct(a.first.value.value, c, t, r) {
      var first := a.first.value.value;
      RowsAnswer(a.viewer.value, PrItems.All(first.comments, c), PrItems.All(first.threads, t), PrItems.All(first.reviews, r),
                 items, from, res.file.items);
    }
  }

  lemma RowsAnswer(viewer: string, conv: seq<PrItems.Comment>, threads: seq<PrItems.Thread>, reviews: seq<PrItems.Review>,
                   items: seq<PrItems.Item>, from: seq<PrFeedback.Origin>, rows: seq<Item>)
    requires PrFeedback.Told(viewer, conv, threads, reviews, items, from)
    requires PrItems.DistinctIds(conv) && PrItems.DistinctThreads(threads)
    requires |rows| == |items| && forall k :: 0 <= k < |items| ==> CarriesOver(items[k], rows[k])
    ensures forall k :: 0 <= k < |from| ==> Answers(viewer, conv, threads, from[k], rows[k])
  {
    forall k | 0 <= k < |from|
      ensures Answers(viewer, conv, threads, from[k], rows[k])
    {
      assert PrFeedback.Shows(conv, threads, reviews, from[k], items[k]);
      assert PrFeedback.Flags(viewer, conv, threads, from[k], items[k]);
      FlagIsNext(viewer, conv, threads, from[k], items[k]);
    }
  }

  /** The row's flag says whether j's own reply is the very next comment of its list. */
  ghost predicate Answers(viewer: string, conv: seq<PrItems.Comment>, threads: seq<PrItems.Thread>,
                          o: PrFeedback.Origin, row: Item)
  {
    match o
    case OfComment(i) =>
      row.hasJReply <==> i + 1 < |conv| && PrFeedback.OwnReply(viewer, conv[i + 1].author, conv[i + 1].body)
    case OfThread(t, i) =>
      row.hasJReply <==>
        && t < |threads| && i + 1 < |threads[t].comments|
        && PrFeedback.OwnReply(viewer, threads[t].comments[i + 1].author, threads[t].comments[i + 1].body)
    case OfReview(_) => !row.hasJReply
  }

  lemma FlagIsNext(viewer: string, conv: seq<PrItems.Comment>, threads: seq<PrItems.Thread>,
                   o: PrFeedback.Origin, it: PrItems.Item)
    requires PrItems.DistinctIds(conv) && PrItems.DistinctThreads(threads)
    requires PrFeedback.Flags(viewer, conv, threads, o, it)
    ensures match o
      case OfComment(i) =>
        it.hasJReply <==> i + 1 < |conv| && PrFeedback.OwnReply(viewer, conv[i + 1].author, conv[i + 1].body)
      case OfThread(t, i) =>
        it.hasJReply <==>
          && t < |threads| && i + 1 < |threads[t].comments|
          && PrFeedback.OwnReply(viewer, threads[t].comments[i + 1].author, threads[t].comments[i + 1].body)
      case OfReview(_) => true
  {
    match o {
      case OfComment(i) =>
        assert PrFeedback.ReplyFollows(viewer, conv, conv[i].id, i) <==>
          i + 1 < |conv| && PrFeedback.OwnReply(viewer, conv[i + 1].author, conv[i + 1].body);
      case OfThread(t, i) =>
        assert PrFeedback.ThreadReplyFollows(viewer, threads, threads[t].id, i, t) <==>
          && i + 1 < |threads[t].comments|
          && PrFeedback.OwnReply(viewer, threads[t].comments[i + 1].author, threads[t].comments[i + 1].body);
      case OfReview(_) =>
    }
  }

  lemma ProjectedDistinct(fetched: seq<PrItems.Item>)
    requires PrItems.DistinctItems(fetched)
    ensures Distinct(Ids(ProjectedAll(fetched)))
  {
  }

  // ---- The artifacts a round's decision calls for. ----

  datatype RoundFault =
    | Post(fault: Fault) | NothingAccepted | PlanMissing | PlanEmpty | ClarificationMissing | ClarificationEmpty

  /** The sizes of plan.md and clarification.md in the round directory; `None` when absent. */
  datatype Artifacts = Artifacts(plan: Option<nat>, clarification: Option<nat>)

  predicate Present(size: Option<nat>) { size.Some? && size.value > 0 }

  ghost predicate RoundComplete(f: ReviewFile, original: set<string>, a: Artifacts) {
    && Complete(f, original)
    && (f.decision == CHANGES_NEEDED ==> (exists it :: it in f.items && it.decision == ACCEPTED) && Present(a.plan))
    && (f.decision == CLARIFICATION_NEEDED ==> Present(a.clarification))
  }

  method AnyAccepted(f: ReviewFile) returns (any: bool)
    ensures any <==> exists it :: it in f.items && it.decision == ACCEPTED
  {
    for i := 0 to |f.items|
      invariant forall k :: 0 <= k < i ==> f.items[k].decision != ACCEPTED
    {
      if f.items[i].decision == ACCEPTED {
        return true;
      }
    }
    return false;
  }

  method ValidateRound(f: ReviewFile, original: set<string>, a: Artifacts) returns (fault: Option<RoundFault>)
    ensures fault == None <==> RoundComplete(f, original, a)
    ensures fault.Some? && fault.value.Post? <==> !Complete(f, original)
    ensures var changes := Complete(f, original) && f.decision == "changes_needed";
      var accepted := exists it :: it in f.items && it.decision == "accepted";
      && (fault == Some(NothingAccepted) <==> changes && !accepted)
      && (fault == Some(PlanMissing) <==> changes && accepted && a.plan == None)
      && (fault == Some(PlanEmpty) <==> changes && accepted && a.plan == Some(0))
    ensures var asks := Complete(f, original) && f.decision == "clarification_needed";
      && (fault == Some(ClarificationMissing) <==> asks && a.clarification == None)
      && (fault == Some(ClarificationEmpty) <==> asks && a.clarification == Some(0))
  {
    var post := ValidatePost(f, original);
    if post.Some? {
      return Some(Post(post.value));
    }
    if f.decision == CHANGES_NEEDED {
      var any := AnyAccepted(f);
      if !any {
        return Some(NothingAccepted);
      }
      match a.plan
      case None => return Some(PlanMissing);
      case Some(size) =>
        if size == 0 {
          return Some(PlanEmpty);
        }
    } else if f.decision == CLARIFICATION_NEEDED {
      match a.clarification
      case None => return Some(ClarificationMissing);
      case Some(size) =>
        if size == 0 {
          return Some(ClarificationEmpty);
        }
    }
    return None;
  }
}
