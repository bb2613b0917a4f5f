/** Flattening a pull request's comments, review threads and reviews into the planner's feedback items. */
module PrItems {
  import opened Common
  import opened Text
  import opened PrFetch

  const REPLY_MARKER := "<!-- j-code-review-reply -->"

  datatype Comment = Comment(id: string, author: string, body: string) {
    predicate Reply(viewer: string) { IsReply(body, author, viewer) }
  }

  datatype ReviewComment = ReviewComment(
    id: string, author: string, body: string, path: string, line: int, originalLine: int)
  {
    predicate Reply(viewer: string) { IsReply(body, author, viewer) }
  }

  datatype Thread = Thread(id: string, isOutdated: bool, comments: seq<ReviewComment>)

  datatype Review = Review(id: string, author: string, body: string, state: string) {
    /** A bare approval carries no feedback, and j's own reviews are not feedback. */
    predicate Skipped(viewer: string) { TrimSpace(body) == "" || IsReply(body, author, viewer) }
  }

  datatype Kind = ConversationKind | ReviewCommentKind | ReviewSummaryKind

  datatype Item = Item(
    sourceID: string, kind: Kind, threadID: string, author: string, body: string,
    path: string, line: int, isOutdated: bool, hasJReply: bool)

  /** The marker alone is not enough: a reviewer may quote it. */
  predicate IsReply(body: string, author: string, viewer: string) {
    viewer != "" && author != "" && Contains(body, REPLY_MARKER) && author == viewer
  }

  function ConversationSourceID(node: string): string { "issue-comment:" + node }

  function ReviewCommentSourceID(node: string): string { "review-comment:" + node }

  function ReviewSummarySourceID(node: string): string { "review-summary:" + node }

  /** The diff line, or the line before a rebase when the thread is outdated. */
  function CommentLine(c: ReviewComment): int { if c.line != 0 then c.line else c.originalLine }

  function ConversationItem(c: Comment, replied: bool): Item {
    Item(ConversationSourceID(c.id), ConversationKind, "", c.author, c.body, "", 0, false, replied)
  }

  function ThreadItem(th: Thread, c: ReviewComment, replied: bool): Item {
    Item(ReviewCommentSourceID(c.id), ReviewCommentKind, th.id, c.author, c.body,
         c.path, CommentLine(c), th.isOutdated, replied)
  }

  function SummaryItem(r: Review): Item {
    Item(ReviewSummarySourceID(r.id), ReviewSummaryKind, "", r.author, r.body, "", 0, false, false)
  }

  // ---- What a reply answers, by definition: the comment right before it in the same list. ----

  predicate Answered(viewer: string, conv: seq<Comment>, i: nat) {
    i + 1 < |conv| && conv[i + 1].Reply(viewer)
  }

  predicate AnsweredInThread(viewer: string, comments: seq<ReviewComment>, i: nat) {
    i + 1 < |comments| && comments[i + 1].Reply(viewer)
  }

  /** One item per comment that is not j's own, in order; `marks` says which were replied to. */
  function ConversationItems(viewer: string, conv: seq<Comment>, marks: seq<bool>): seq<Item>
    requires |marks| == |conv|
  {
    if conv == [] then []
    else
      var n := |conv| - 1;
      ConversationItems(viewer, conv[..n], marks[..n])
      + if conv[n].Reply(viewer) then [] else [ConversationItem(conv[n], marks[n])]
  }

  /** `th` gives the items their thread id and outdated flag. */
  function ThreadItems(viewer: string, th: Thread, comments: seq<ReviewComment>, marks: seq<bool>): seq<Item>
    requires |marks| == |comments|
    decreases |comments|
  {
    if comments == [] then []
    else
      var n := |comments| - 1;
      ThreadItems(viewer, th, comments[..n], marks[..n])
      + if comments[n].Reply(viewer) then [] else [ThreadItem(th, comments[n], marks[n])]
  }

  ghost predicate Fits(threads: seq<Thread>, marks: seq<seq<bool>>) {
    |marks| == |threads| && forall t :: 0 <= t < |threads| ==> |marks[t]| == |threads[t].comments|
  }

  ghost function AllThreadItems(viewer: string, threads: seq<Thread>, marks: seq<seq<bool>>): seq<Item>
    requires Fits(threads, marks)
  {
    if threads == [] then []
    else
      var n := |threads| - 1;
      AllThreadItems(viewer, threads[..n], marks[..n]) + ThreadItems(viewer, threads[n], threads[n].comments, marks[n])
  }

  /** The item of one review, if any. */
  function SummaryOf(viewer: string, r: Review): seq<Item> { if r.Skipped(viewer) then [] else [SummaryItem(r)] }

  function SummaryItems(viewer: string, reviews: seq<Review>): seq<Item> {
    if reviews == [] then []
    else
      var n := |reviews| - 1;
      SummaryItems(viewer, reviews[..n]) + SummaryOf(viewer, reviews[n])
  }

  ghost function AnsweredMarks(viewer: string, conv: seq<Comment>): (m: seq<bool>) {
    seq(|conv|, i requires 0 <= i < |conv| => Answered(viewer, conv, i))
  }

  ghost function AnsweredThreadMarks(viewer: string, threads: seq<Thread>): (m: seq<seq<bool>>)
    ensures Fits(threads, m)
  {
    seq(|threads|, t requires 0 <= t < |threads| => OneThreadMarks(viewer, threads[t].comments, threads[t].comments))
  }

  /** For each of `own`: does a reply follow at that position of `list`? */
  ghost function OneThreadMarks(viewer: string, own: seq<ReviewComment>, list: seq<ReviewComment>): (m: seq<bool>)
    ensures |m| == |own|
  {
    seq(|own|, i requires 0 <= i < |own| => AnsweredInThread(viewer, list, i))
  }

  /** The three lists flattened one after the other. */
  ghost function Flattened(viewer: string, conv: seq<Comment>, marks: seq<bool>,
        threads: seq<Thread>, threadMarks: seq<seq<bool>>, reviews: seq<Review>): seq<Item>
    requires |marks| == |conv| && Fits(threads, threadMarks)
  {
    ConversationItems(viewer, conv, marks) + AllThreadItems(viewer, threads, threadMarks) + SummaryItems(viewer, reviews)
  }

  /** The naive definition of the flattened feedback. */
  ghost function Items(viewer: string, conv: seq<Comment>, threads: seq<Thread>, reviews: seq<Review>): seq<Item> {
    Flattened(viewer, conv, AnsweredMarks(viewer, conv), threads, AnsweredThreadMarks(viewer, threads), reviews)
  }

  // ---- What the reply index gives, whether or not ids repeat. ----

  /** A conversation entry is keyed by source id, so it marks every comment with that id. */
  ghost predicate IdAnswered(viewer: string, conv: seq<Comment>, id: string) {
    exists j: nat :: Answered(viewer, conv, j) && ConversationSourceID(conv[j].id) == id
  }

  /** The comments of the last thread with that id, none when there is no such thread: later entries overwrite. */
  function LastComments(threads: seq<Thread>, id: string): seq<ReviewComment> {
    if threads == [] then []
    else
      var n := |threads| - 1;
      if threads[n].id == id then threads[n].comments else LastComments(threads[..n], id)
  }

  ghost function IndexMarks(viewer: string, conv: seq<Comment>): (m: seq<bool>) {
    seq(|conv|, i requires 0 <= i < |conv| => IdAnswered(viewer, conv, ConversationSourceID(conv[i].id)))
  }

  ghost function IndexThreadMarks(viewer: string, threads: seq<Thread>): (m: seq<seq<bool>>)
    ensures Fits(threads, m)
  {
    seq(|threads|, t requires 0 <= t < |threads| =>
      OneThreadMarks(viewer, threads[t].comments, LastComments(threads, threads[t].id)))
  }

  ghost predicate DistinctIds(conv: seq<Comment>) {
    forall i, j :: 0 <= i < j < |conv| ==> conv[i].id != conv[j].id
  }

  ghost predicate DistinctThreads(threads: seq<Thread>) {
    forall s, t :: 0 <= s < t < |threads| ==> threads[s].id != threads[t].id
  }

  /** With distinct ids the index says exactly what the definition says. */
  lemma IndexAgrees(viewer: string, conv: seq<Comment>, threads: seq<Thread>)
    ensures DistinctIds(conv) ==> IndexMarks(viewer, conv) == AnsweredMarks(viewer, conv)
    ensures DistinctThreads(threads) ==> IndexThreadMarks(viewer, threads) == AnsweredThreadMarks(viewer, threads)
  {
    if DistinctIds(conv) {
      forall i | 0 <= i < |conv|
        ensures IdAnswered(viewer, conv, ConversationSourceID(conv[i].id)) == Answered(viewer, conv, i)
      {
        if j: nat :| Answered(viewer, conv, j) && ConversationSourceID(conv[j].id) == ConversationSourceID(conv[i].id) {
          SameTail("issue-comment:", conv[j].id, conv[i].id);
        }
      }
    }
    if DistinctThreads(threads) {
      forall t | 0 <= t < |threads| ensures LastComments(threads, threads[t].id) == threads[t].comments {
        LastOfDistinct(threads, t);
      }
    }
  }

  lemma {:induction false} LastOfDistinct(threads: seq<Thread>, t: nat)
    requires DistinctThreads(threads) && t < |threads|
    ensures LastComments(threads, threads[t].id) == threads[t].comments
    decreases |threads|
  {
    if t < |threads| - 1 {
      LastOfDistinct(threads[..|threads| - 1], t);
    }
  }

  lemma SameTail(p: string, a: string, b: string)
    requires p + a == p + b
    ensures a == b
  {
    assert (p + a)[|p|..] == a;
    assert (p + b)[|p|..] == b;
  }

  // ---- The index and the flattening, as the program runs them. ----

  datatype ReplyIndex = ReplyIndex(conv: map<string, bool>, thread: map<string, map<nat, bool>>) {
    predicate HasConversationReply(id: string) { id in conv && conv[id] }

    predicate HasThreadReply(id: string, i: nat) { id in thread && i in thread[id] && thread[id][i] }

    /** The marks a lookup of every comment gives. */
    ghost function Marks(comments: seq<Comment>): (m: seq<bool>)
      ensures |m| == |comments|
    {
      seq(|comments|, i requires 0 <= i < |comments| => HasConversationReply(ConversationSourceID(comments[i].id)))
    }

    ghost function ThreadMarks(th: Thread): (m: seq<bool>)
      ensures |m| == |th.comments|
    {
      seq(|th.comments|, i requires 0 <= i < |th.comments| => HasThreadReply(th.id, i))
    }
  }

  ghost predicate IsThreadIndex(viewer: string, comments: seq<ReviewComment>, at: map<nat, bool>) {
    forall k: nat :: (k in at && at[k]) <==> AnsweredInThread(viewer, comments, k)
  }

  method CollectThreadReplyIndex(viewer: string, comments: seq<ReviewComment>) returns (out: map<nat, bool>)
    ensures IsThreadIndex(viewer, comments, out)
  {
    out := map[];
    for i := 0 to |comments|
      invariant forall k: nat :: (k in out && out[k]) <==> k + 1 < i && AnsweredInThread(viewer, comments, k)
    {
      if !comments[i].Reply(viewer) || i == 0 {
        continue;
      }
      out := out[i - 1 := true];
    }
  }

  /** What the index must answer. */
  ghost predicate IsIndex(viewer: string, conv: seq<Comment>, threads: seq<Thread>, idx: ReplyIndex) {
    && (forall id :: idx.HasConversationReply(id) <==> IdAnswered(viewer, conv, id))
    && (forall id, k: nat :: idx.HasThreadReply(id, k) <==> AnsweredInThread(viewer, LastComments(threads, id), k))
  }

  method CollectReplyAuthors(viewer: string, conv: seq<Comment>, threads: seq<Thread>) returns (idx: ReplyIndex)
    ensures IsIndex(viewer, conv, threads, idx)
  {
    var marked: map<string, bool> := map[];
    for i := 0 to |conv|
      invariant forall id :: (id in marked && marked[id]) <==>
        exists j: nat :: j + 1 < i && Answered(viewer, conv, j) && ConversationSourceID(conv[j].id) == id
    {
      if !conv[i].Reply(viewer) || i == 0 {
        continue;
      }
      assert Answered(viewer, conv, i - 1);
      marked := marked[ConversationSourceID(conv[i - 1].id) := true];
    }
    var byThread: map<string, map<nat, bool>> := map[];
    for n := 0 to |threads|
      invariant forall id :: id in byThread ==> IsThreadIndex(viewer, LastComments(threads[..n], id), byThread[id])
      invariant forall id :: id !in byThread ==> LastComments(threads[..n], id) == []
    {
      var one := CollectThreadReplyIndex(viewer, threads[n].comments);
      byThread := byThread[threads[n].id := one];
      assert threads[..n + 1][..n] == threads[..n];
    }
    assert threads[..|threads|] == threads;
    idx := ReplyIndex(marked, byThread);
  }

  method AppendConversationItems(items: seq<Item>, viewer: string, conv: seq<Comment>, replies: ReplyIndex)
    returns (out: seq<Item>)
    ensures out == items + ConversationItems(viewer, conv, replies.Marks(conv))
  {
    ghost var marks := replies.Marks(conv);
    out := items;
    for i := 0 to |conv|
      invariant out == items + ConversationItems(viewer, conv[..i], marks[..i])
    {
      var c := conv[i];
      assert conv[..i + 1][..i] == conv[..i] && marks[..i + 1][..i] == marks[..i];
      if c.Reply(viewer) {
        continue;
      }
      var id := ConversationSourceID(c.id);
      out := out + [ConversationItem(c, replies.HasConversationReply(id))];
    }
    assert conv[..|conv|] == conv && marks[..|conv|] == marks;
  }

  method CollectThreadItems(viewer: string, th: Thread, replies: ReplyIndex) returns (out: seq<Item>)
    ensures out == ThreadItems(viewer, th, th.comments, replies.ThreadMarks(th))
  {
    ghost var marks := replies.ThreadMarks(th);
    out := [];
    for i := 0 to |th.comments|
      invariant out == ThreadItems(viewer, th, th.comments[..i], marks[..i])
    {
      var c := th.comments[i];
      assert th.comments[..i + 1][..i] == th.comments[..i] && marks[..i + 1][..i] == marks[..i];
      if c.Reply(viewer) {
        continue;
      }
      out := out + [ThreadItem(th, c, replies.HasThreadReply(th.id, i))];
    }
    assert th.comments[..|th.comments|] == th.comments && marks[..|th.comments|] == marks;
  }

  method SkipsReview(r: Review, viewer: string) returns (skip: bool)
    ensures skip == r.Skipped(viewer)
  {
    if TrimSpace(r.body) == "" {
      return true;
    }
    return IsReply(r.body, r.author, viewer);
  }

  method AppendReviewSummaryItems(items: seq<Item>, viewer: string, reviews: seq<Review>) returns (out: seq<Item>)
    ensures out == items + SummaryItems(viewer, reviews)
  {
    out := items;
    ghost var done := [];
    for i := 0 to |reviews|
      invariant done == SummaryItems(viewer, reviews[..i])
      invariant out == items + done
    {
      var r := reviews[i];
      SummaryItemsNext(viewer, reviews, i);
      var skip := SkipsReview(r, viewer);
      if skip {
        continue;
      }
      Regroup(items, done, [SummaryItem(r)]);
      out, done := out + [SummaryItem(r)], done + [SummaryItem(r)];
    }
    assert reviews[..|reviews|] == reviews;
  }

  lemma SummaryItemsNext(viewer: string, reviews: seq<Review>, i: nat)
    requires i < |reviews|
    ensures SummaryItems(viewer, reviews[..i + 1])
      == SummaryItems(viewer, reviews[..i]) + SummaryOf(viewer, reviews[i])
  {
    assert reviews[..i + 1][..i] == reviews[..i];
  }

  /** Looking the index up gives the marks of the specification. */
  lemma MarksOfIndex(viewer: string, conv: seq<Comment>, threads: seq<Thread>, idx: ReplyIndex)
    requires IsIndex(viewer, conv, threads, idx)
    ensures IndexMarks(viewer, conv) == idx.Marks(conv)
    ensures forall t :: 0 <= t < |threads| ==> IndexThreadMarks(viewer, threads)[t] == idx.ThreadMarks(threads[t])
  {
  }

  lemma AllThreadItemsNext(viewer: string, threads: seq<Thread>, marks: seq<seq<bool>>, t: nat)
    requires Fits(threads, marks) && t < |threads|
    ensures AllThreadItems(viewer, threads[..t + 1], marks[..t + 1])
      == AllThreadItems(viewer, threads[..t], marks[..t]) + ThreadItems(viewer, threads[t], threads[t].comments, marks[t])
  {
    assert threads[..t + 1][..t] == threads[..t] && marks[..t + 1][..t] == marks[..t];
  }

  /** The middle loop of the flattening: thread after thread. */
  method AppendThreadItems(items: seq<Item>, viewer: string, threads: seq<Thread>, replies: ReplyIndex,
        ghost marks: seq<seq<bool>>)
    returns (out: seq<Item>)
    requires Fits(threads, marks) && forall t :: 0 <= t < |threads| ==> marks[t] == replies.ThreadMarks(threads[t])
    ensures out == items + AllThreadItems(viewer, threads, marks)
  {
    ghost var done := [];
    out := items;
    for t := 0 to |threads|
      invariant done == AllThreadItems(viewer, threads[..t], marks[..t])
      invariant out == items + done
    {
      var more := CollectThreadItems(viewer, threads[t], replies);
      AllThreadItemsNext(viewer, threads, marks, t);
      out := out + more;
      done := done + more;
    }
    assert threads[..|threads|] == threads && marks[..|threads|] == marks;
  }

  /** The flattened feedback for any ids, and the naive definition of it when ids are distinct. */
  method CollectItems(viewer: string, conv: seq<Comment>, threads: seq<Thread>, reviews: seq<Review>)
    returns (items: seq<Item>)
    ensures items == Flattened(viewer, conv, IndexMarks(viewer, conv), threads, IndexThreadMarks(viewer, threads), reviews)
    ensures DistinctIds(conv) && DistinctThreads(threads) ==> items == Items(viewer, conv, threads, reviews)
  {
    var replies := CollectReplyAuthors(viewer, conv, threads);
    items := AppendConversationItems([], viewer, conv, replies);
    MarksOfIndex(viewer, conv, threads, replies);
    items := AppendThreadItems(items, viewer, threads, replies, IndexThreadMarks(viewer, threads));
    assert items == ConversationItems(viewer, conv, IndexMarks(viewer, conv))
                 + AllThreadItems(viewer, threads, IndexThreadMarks(viewer, threads));
    items := AppendReviewSummaryItems(items, viewer, reviews);
    IndexAgrees(viewer, conv, threads);
  }

  // ---- The source ids of the feedback are pairwise distinct. ----

  ghost predicate DistinctComments(threads: seq<Thread>) {
    forall s, i, t, j :: 0 <= s < |threads| && 0 <= i < |threads[s].comments|
        && 0 <= t < |threads| && 0 <= j < |threads[t].comments| && (s != t || i != j)
      ==> threads[s].comments[i].id != threads[t].comments[j].id
  }

  ghost predicate DistinctReviews(reviews: seq<Review>) {
    forall i, j :: 0 <= i < j < |reviews| ==> reviews[i].id != reviews[j].id
  }

  /** No two items of the list carry the same source id. */
  ghost predicate DistinctItems(items: seq<Item>) {
    forall i, j :: 0 <= i < j < |items| ==> items[i].sourceID != items[j].sourceID
  }

  /** Every item of the list carries one of `ids` behind `prefix`. */
  ghost predicate From(items: seq<Item>, prefix: string, ids: set<string>) {
    forall it :: it in items ==> exists id :: id in ids && it.sourceID == prefix + id
  }

  lemma JoinDistinct(a: seq<Item>, b: seq<Item>)
    requires DistinctItems(a) && DistinctItems(b)
    requires forall p, q :: p in a && q in b ==> p.sourceID != q.sourceID
    ensures DistinctItems(a + b)
  {
    forall i, j | 0 <= i < |a| <= j < |a + b| ensures (a + b)[i].sourceID != (a + b)[j].sourceID {
      assert a[i] in a && b[j - |a|] in b;
    }
  }

  lemma AppendDistinct(a: seq<Item>, b: seq<Item>, prefix: string, ids: set<string>, more: set<string>)
    requires DistinctItems(a) && DistinctItems(b) && From(a, prefix, ids) && From(b, prefix, more) && ids !! more
    ensures DistinctItems(a + b) && From(a + b, prefix, ids + more)
  {
    forall p, q | p in a && q in b ensures p.sourceID != q.sourceID {
      var x :| x in ids && p.sourceID == prefix + x;
      var y :| y in more && q.sourceID == prefix + y;
      if prefix + x == prefix + y {
        SameTail(prefix, x, y);
      }
    }
    JoinDistinct(a, b);
  }

  ghost function CommentIds(conv: seq<Comment>): set<string> { set i | 0 <= i < |conv| :: conv[i].id }

  ghost function ReviewCommentIds(comments: seq<ReviewComment>): set<string> {
    set i | 0 <= i < |comments| :: comments[i].id
  }

  ghost function ThreadIds(threads: seq<Thread>): set<string> {
    set t, i | 0 <= t < |threads| && 0 <= i < |threads[t].comments| :: threads[t].comments[i].id
  }

  ghost function ReviewIds(reviews: seq<Review>): set<string> { set i | 0 <= i < |reviews| :: reviews[i].id }

  lemma {:induction false} ConversationDistinct(viewer: string, conv: seq<Comment>, marks: seq<bool>)
    requires |marks| == |conv| && DistinctIds(conv)
    ensures DistinctItems(ConversationItems(viewer, conv, marks))
    ensures From(ConversationItems(viewer, conv, marks), "issue-comment:", CommentIds(conv))
  {
    if conv != [] {
      var n := |conv| - 1;
      ConversationDistinct(viewer, conv[..n], marks[..n]);
      assert CommentIds(conv) == CommentIds(conv[..n]) + {conv[n].id};
      var a, b := ConversationItems(viewer, conv[..n], marks[..n]), [ConversationItem(conv[n], marks[n])];
      AppendDistinct(a, if conv[n].Reply(viewer) then [] else b, "issue-comment:", CommentIds(conv[..n]), {conv[n].id});
    }
  }

  lemma {:induction false} ThreadDistinct(viewer: string, th: Thread, comments: seq<ReviewComment>, marks: seq<bool>)
    requires |marks| == |comments|
    requires forall i, j :: 0 <= i < j < |comments| ==> comments[i].id != comments[j].id
    ensures DistinctItems(ThreadItems(viewer, th, comments, marks))
    ensures From(ThreadItems(viewer, th, comments, marks), "review-comment:", ReviewCommentIds(comments))
    decreases |comments|
  {
    if comments != [] {
      var n := |comments| - 1;
      ThreadDistinct(viewer, th, comments[..n], marks[..n]);
      assert ReviewCommentIds(comments) == ReviewCommentIds(comments[..n]) + {comments[n].id};
      AppendDistinct(ThreadItems(viewer, th, comments[..n], marks[..n]),
                     if comments[n].Reply(viewer) then [] else [ThreadItem(th, comments[n], marks[n])],
                     "review-comment:", ReviewCommentIds(comments[..n]), {comments[n].id});
    }
  }

  lemma {:induction false} ThreadsDistinct(viewer: string, threads: seq<Thread>, marks: seq<seq<bool>>)
    requires Fits(threads, marks) && DistinctComments(threads)
    ensures DistinctItems(AllThreadItems(viewer, threads, marks))
    ensures From(AllThreadItems(viewer, threads, marks), "review-comment:", ThreadIds(threads))
  {
    if threads != [] {
      var n := |threads| - 1;
      ThreadsDistinct(viewer, threads[..n], marks[..n]);
      ThreadDistinct(viewer, threads[n], threads[n].comments, marks[n]);
      assert ThreadIds(threads) == ThreadIds(threads[..n]) + ReviewCommentIds(threads[n].comments);
      AppendDistinct(AllThreadItems(viewer, threads[..n], marks[..n]), ThreadItems(viewer, threads[n], threads[n].comments, marks[n]),
                     "review-comment:", ThreadIds(threads[..n]), ReviewCommentIds(threads[n].comments));
    }
  }

  lemma SummaryOfDistinct(viewer: string, r: Review)
    ensures DistinctItems(SummaryOf(viewer, r)) && From(SummaryOf(viewer, r), "review-summary:", {r.id})
  {
  }

  lemma {:induction false} ReviewsDistinct(viewer: string, reviews: seq<Review>)
    requires DistinctReviews(reviews)
    ensures DistinctItems(SummaryItems(viewer, reviews))
    ensures From(SummaryItems(viewer, reviews), "review-summary:", ReviewIds(reviews))
  {
    if reviews != [] {
      var n := |reviews| - 1;
      ReviewsDistinct(viewer, reviews[..n]);
      assert ReviewIds(reviews) == ReviewIds(reviews[..n]) + {reviews[n].id};
      SummaryOfDistinct(viewer, reviews[n]);
      AppendDistinct(SummaryItems(viewer, reviews[..n]), SummaryOf(viewer, reviews[n]),
                     "review-summary:", ReviewIds(reviews[..n]), {reviews[n].id});
    }
  }

  /** The three prefixes differ at their seventh or eighth character, so no id has two of them. */
  lemma PrefixesDisjoint(a: string, b: string, c: string)
    ensures "issue-comment:" + a != "review-comment:" + b
    ensures "issue-comment:" + a != "review-summary:" + c
    ensures "review-comment:" + b != "review-summary:" + c
  {
    assert ("issue-comment:" + a)[0] != ("review-comment:" + b)[0];
    assert ("issue-comment:" + a)[0] != ("review-summary:" + c)[0];
    assert ("review-comment:" + b)[7] != ("review-summary:" + c)[7];
  }

  lemma ThreePartsDistinct(a: seq<Item>, b: seq<Item>, c: seq<Item>, x: set<string>, y: set<string>, z: set<string>)
    requires DistinctItems(a) && DistinctItems(b) && DistinctItems(c)
    requires From(a, "issue-comment:", x) && From(b, "review-comment:", y) && From(c, "review-summary:", z)
    ensures DistinctItems(a + b + c)
  {
    forall p, q | p in a && q in b ensures p.sourceID != q.sourceID {
      var i :| i in x && p.sourceID == "issue-comment:" + i;
      var j :| j in y && q.sourceID == "review-comment:" + j;
      PrefixesDisjoint(i, j, "");
    }
    forall p, r | p in a && r in c ensures p.sourceID != r.sourceID {
      var i :| i in x && p.sourceID == "issue-comment:" + i;
      var k :| k in z && r.sourceID == "review-summary:" + k;
      PrefixesDisjoint(i, "", k);
    }
    forall q, r | q in b && r in c ensures q.sourceID != r.sourceID {
      var j :| j in y && q.sourceID == "review-comment:" + j;
      var k :| k in z && r.sourceID == "review-summary:" + k;
      PrefixesDisjoint("", j, k);
    }
    JoinDistinct(b, c);
    JoinDistinct(a, b + c);
    assert a + b + c == a + (b + c);
  }

  /** Distinct node ids per kind are enough: the flattened items have pairwise distinct source ids. */
  lemma ItemsDistinct(viewer: string, conv: seq<Comment>, marks: seq<bool>,
        threads: seq<Thread>, threadMarks: seq<seq<bool>>, reviews: seq<Review>)
    requires |marks| == |conv| && Fits(threads, threadMarks)
    requires DistinctIds(conv) && DistinctComments(threads) && DistinctReviews(reviews)
    ensures DistinctItems(Flattened(viewer, conv, marks, threads, threadMarks, reviews))
  {
    ConversationDistinct(viewer, conv, marks);
    ThreadsDistinct(viewer, threads, threadMarks);
    ReviewsDistinct(viewer, reviews);
    ThreePartsDistinct(
      ConversationItems(viewer, conv, marks), AllThreadItems(viewer, threads, threadMarks), SummaryItems(viewer, reviews),
      CommentIds(conv), ThreadIds(threads), ReviewIds(reviews));
  }

  // ---- The whole fetch. ----

  datatype FirstPage = FirstPage(
    state: string, merged: bool, draft: bool, comments: Page<Comment>, threads: Page<Thread>, reviews: Page<Review>)

  /** What the service answers: the viewer, the first page (if the pull request exists), and the three lists. */
  datatype Answers = Answers(
    viewer: Result<string, FetchError>, first: Result<Option<FirstPage>, FetchError>,
    comments: Service<Comment>, threads: Service<Thread>, reviews: Service<Review>)

  /** How one connection runs out. */
  datatype Run<+N> = Run(pages: seq<Page<N>>, end: Option<FetchError>)

  /** The pull request is there and open, so that its lists are drained. */
  predicate Drains(a: Answers) {
    a.viewer.Ok? && a.first.Ok? && a.first.value.Some?
    && GuardState(a.first.value.value.state, a.first.value.value.merged, a.first.value.value.draft) == None
  }

  /** How the connections run out, as far as they are drained: an error in one leaves the next alone. */
  ghost predicate RunsOut(a: Answers, c: Run<Comment>, t: Run<Thread>, r: Run<Review>)
    requires Drains(a)
  {
    var first := a.first.value.value;
    && Chain(a.comments, 0, first.comments.info, c.pages, c.end)
    && (c.end == None ==> Chain(a.threads, 0, first.threads.info, t.pages, t.end))
    && (c.end == None && t.end == None ==> Chain(a.reviews, 0, first.reviews.info, r.pages, r.end))
  }

  /** The error of the first step that fails, in the order the steps are taken. */
  function Failure(a: Answers, c: Run<Comment>, t: Run<Thread>, r: Run<Review>): (e: Option<FetchError>)
    ensures e == None ==> Drains(a)
  {
    if a.viewer.Err? then Some(a.viewer.error)
    else if a.first.Err? then Some(a.first.error)
    else if a.first.value == None then Some(NotFound)
    else
      var first := a.first.value.value;
      var guard := GuardState(first.state, first.merged, first.draft);
      if guard.Some? then guard else if c.end.Some? then c.end else if t.end.Some? then t.end else r.end
  }

  /** A drained list: the first page's nodes and those of the pages that follow. */
  function All<N>(first: Page<N>, run: Run<N>): seq<N> { first.nodes + Nodes(run.pages) }

  /** Every page of every list, flattened through the index. */
  ghost function Gathered(a: Answers, c: Run<Comment>, t: Run<Thread>, r: Run<Review>): seq<Item>
    requires Drains(a)
  {
    var first, viewer := a.first.value.value, a.viewer.value;
    var conv, threads := All(first.comments, c), All(first.threads, t);
    Flattened(viewer, conv, IndexMarks(viewer, conv), threads, IndexThreadMarks(viewer, threads), All(first.reviews, r))
  }

  /** With distinct ids the gathered items are the naive ones, and their source ids are pairwise distinct. */
  lemma GatheredNaive(a: Answers, c: Run<Comment>, t: Run<Thread>, r: Run<Review>)
    requires Drains(a)
    ensures var first := a.first.value.value;
      var conv, threads, reviews := All(first.comments, c), All(first.threads, t), All(first.reviews, r);
      && (DistinctIds(conv) && DistinctThreads(threads) ==>
            Gathered(a, c, t, r) == Items(a.viewer.value, conv, threads, reviews))
      && (DistinctIds(conv) && DistinctComments(threads) && DistinctReviews(reviews) ==>
            DistinctItems(Gathered(a, c, t, r)))
  {
    var first, viewer := a.first.value.value, a.viewer.value;
    var conv, threads, reviews := All(first.comments, c), All(first.threads, t), All(first.reviews, r);
    IndexAgrees(viewer, conv, threads);
    if DistinctIds(conv) && DistinctComments(threads) && DistinctReviews(reviews) {
      ItemsDistinct(viewer, conv, IndexMarks(viewer, conv), threads, IndexThreadMarks(viewer, threads), reviews);
    }
  }

  /** The feedback of an open pull request, or the first error. */
  method FetchPR(a: Answers, ghost c: Run<Comment>, ghost t: Run<Thread>, ghost r: Run<Review>)
    returns (res: Result<seq<Item>, FetchError>)
    requires Drains(a) ==> RunsOut(a, c, t, r)
    ensures Failure(a, c, t, r).Some? ==> res == Err(Failure(a, c, t, r).value)
    ensures Failure(a, c, t, r) == None ==> res == Ok(Gathered(a, c, t, r))
  {
    if a.viewer.Err? {
      return Err(a.viewer.error);
    }
    if a.first.Err? {
      return Err(a.first.error);
    }
    if a.first.value == None {
      return Err(NotFound);
    }
    var first := a.first.value.value;
    var guard := GuardState(first.state, first.merged, first.draft);
    if guard.Some? {
      return Err(guard.value);
    }
    var conv, _ := FetchPaged(a.comments, first.comments.info, first.comments.nodes, c.pages, c.end);
    if conv.Err? {
      return Err(conv.error);
    }
    var threads, _ := FetchPaged(a.threads, first.threads.info, first.threads.nodes, t.pages, t.end);
    if threads.Err? {
      return Err(threads.error);
    }
    var reviews, _ := FetchPaged(a.reviews, first.reviews.info, first.reviews.nodes, r.pages, r.end);
    if reviews.Err? {
      return Err(reviews.error);
    }
    var items := CollectItems(a.viewer.value, conv.value, threads.value, reviews.value);
    res := Ok(items);
  }
}
