/**
 * The feedback of a pull request told from the comments' own fields: which comments, threads and
 * reviews have an item, in which order, with which fields, and which count as answered.
 */
module PrFeedback {
  import opened Common
  import opened Text
  import PrFetch
  import opened PrItems

  /** The reply marker stands at position `i`. */
  predicate MarkerAt(body: string, i: nat) { i <= |body| && "<!-- j-code-review-reply -->" <= body[i..] }

  /** j's own reply: written by the viewer, with the marker somewhere in it. */
  ghost predicate OwnReply(viewer: string, author: string, body: string) {
    viewer != "" && author == viewer && exists i: nat :: MarkerAt(body, i)
  }

  /** Where an item comes from: a conversation comment, a comment of a thread, or a review. */
  datatype Origin = OfComment(i: nat) | OfThread(t: nat, i: nat) | OfReview(n: nat)

  /** The order of the feedback: comments, then thread after thread, then reviews, each in its own order. */
  predicate Before(a: Origin, b: Origin) {
    match a
    case OfComment(i) => b.OfComment? ==> i < b.i
    case OfThread(t, i) => b.OfReview? || (b.OfThread? && (t < b.t || (t == b.t && i < b.i)))
    case OfReview(n) => b.OfReview? && n < b.n
  }

  /** Everything but j's own replies and reviews without a text. */
  ghost predicate Wanted(viewer: string, conv: seq<Comment>, threads: seq<Thread>, reviews: seq<Review>, o: Origin) {
    match o
    case OfComment(i) => i < |conv| && !OwnReply(viewer, conv[i].author, conv[i].body)
    case OfThread(t, i) =>
      && t < |threads| && i < |threads[t].comments|
      && !OwnReply(viewer, threads[t].comments[i].author, threads[t].comments[i].body)
    case OfReview(n) =>
      n < |reviews| && !AllSpace(reviews[n].body) && !OwnReply(viewer, reviews[n].author, reviews[n].body)
  }

  predicate ShowsComment(it: Item, c: Comment) {
    && it.sourceID == "issue-comment:" + c.id && it.kind == ConversationKind && it.author == c.author && it.body == c.body
    && it.threadID == "" && it.path == "" && it.line == 0 && !it.isOutdated
  }

  predicate ShowsThreadComment(it: Item, th: Thread, c: ReviewComment) {
    && it.sourceID == "review-comment:" + c.id && it.kind == ReviewCommentKind && it.author == c.author && it.body == c.body
    && it.threadID == th.id && it.path == c.path && it.isOutdated == th.isOutdated
    && it.line == (if c.line != 0 then c.line else c.originalLine)
  }

  predicate ShowsReview(it: Item, r: Review) {
    && it.sourceID == "review-summary:" + r.id && it.kind == ReviewSummaryKind && it.author == r.author && it.body == r.body
    && it.threadID == "" && it.path == "" && it.line == 0 && !it.isOutdated && !it.hasJReply
  }

  /** The item carries the fields of its origin. */
  predicate Shows(conv: seq<Comment>, threads: seq<Thread>, reviews: seq<Review>, o: Origin, it: Item) {
    match o
    case OfComment(i) => i < |conv| && ShowsComment(it, conv[i])
    case OfThread(t, i) =>
      t < |threads| && i < |threads[t].comments| && ShowsThreadComment(it, threads[t], threads[t].comments[i])
    case OfReview(n) => n < |reviews| && ShowsReview(it, reviews[n])
  }

  /** Comment `j` has the same id and j's own reply comes right after it. */
  ghost predicate ReplyFollows(viewer: string, conv: seq<Comment>, id: string, j: nat) {
    j + 1 < |conv| && conv[j].id == id && OwnReply(viewer, conv[j + 1].author, conv[j + 1].body)
  }

  /** Thread `u` is the last one with that id, and j's own reply comes right after its comment `i`. */
  ghost predicate ThreadReplyFollows(viewer: string, threads: seq<Thread>, id: string, i: nat, u: nat) {
    && u < |threads| && threads[u].id == id && (forall v :: u < v < |threads| ==> threads[v].id != id)
    && i + 1 < |threads[u].comments| && OwnReply(viewer, threads[u].comments[i + 1].author, threads[u].comments[i + 1].body)
  }

  /** The item's flag says whether j answered. */
  ghost predicate Flags(viewer: string, conv: seq<Comment>, threads: seq<Thread>, o: Origin, it: Item) {
    match o
    case OfComment(i) => i < |conv| && (it.hasJReply <==> exists j: nat :: ReplyFollows(viewer, conv, conv[i].id, j))
    case OfThread(t, i) =>
      t < |threads| && (it.hasJReply <==> exists u: nat :: ThreadReplyFollows(viewer, threads, threads[t].id, i, u))
    case OfReview(_) => true
  }

  /** The items are exactly what is wanted, in order, each with the fields of its origin. */
  ghost predicate Told(viewer: string, conv: seq<Comment>, threads: seq<Thread>, reviews: seq<Review>,
                       items: seq<Item>, from: seq<Origin>)
  {
    && |from| == |items| && InOrder(from)
    && (forall k :: 0 <= k < |from| ==> Shows(conv, threads, reviews, from[k], items[k]))
    && (forall k :: 0 <= k < |from| ==> Flags(viewer, conv, threads, from[k], items[k]))
    && (forall o: Origin :: o in from <==> Wanted(viewer, conv, threads, reviews, o))
  }

  predicate InOrder(from: seq<Origin>) { forall k, l :: 0 <= k < l < |from| ==> Before(from[k], from[l]) }

  // ---- The reply test and the blank test, by field. ----

  lemma ReplyIsOwn(body: string, author: string, viewer: string)
    ensures IsReply(body, author, viewer) <==> OwnReply(viewer, author, body)
  {
    if i: nat :| MarkerAt(body, i) {
      assert REPLY_MARKER <= body[i..];
    }
    if Contains(body, REPLY_MARKER) {
      var i :| 0 <= i <= |body| && REPLY_MARKER <= body[i..];
      assert MarkerAt(body, i);
    }
  }

  lemma BlankIsSpace(body: string)
    ensures TrimSpace(body) == "" <==> AllSpace(body)
  {
    if TrimSpace(body) == "" {
      var a, b := TrimParts(body);
      assert body == a + b;
    } else if AllSpace(body) {
      TrimBlank(body);
    }
  }

  lemma SkippedIs(r: Review, viewer: string)
    ensures r.Skipped(viewer) <==> AllSpace(r.body) || OwnReply(viewer, r.author, r.body)
  {
    ReplyIsOwn(r.body, r.author, viewer);
    BlankIsSpace(r.body);
  }

  // ---- The three parts. ----

  /** The conversation items and where they come from; `marks` are their flags. */
  ghost predicate ConversationTold(viewer: string, conv: seq<Comment>, marks: seq<bool>, items: seq<Item>, from: seq<Origin>) {
    && |marks| == |conv| && |from| == |items| && InOrder(from)
    && (forall k :: 0 <= k < |from| ==>
          && from[k].OfComment? && from[k].i < |conv|
          && ShowsComment(items[k], conv[from[k].i]) && items[k].hasJReply == marks[from[k].i])
    && (forall i: nat :: OfComment(i) in from <==> i < |conv| && !OwnReply(viewer, conv[i].author, conv[i].body))
  }

  lemma CommentShown(c: Comment, replied: bool)
    ensures ShowsComment(ConversationItem(c, replied), c) && ConversationItem(c, replied).hasJReply == replied
  {
  }

  /** One more comment: with an item of its own, or without when it is j's own reply. */
  lemma ConversationNext(viewer: string, conv: seq<Comment>, marks: seq<bool>, items: seq<Item>, from: seq<Origin>,
                         it: Item, wanted: bool)
    requires |marks| == |conv| > 0
    requires ConversationTold(viewer, conv[..|conv| - 1], marks[..|conv| - 1], items, from)
    requires var n := |conv| - 1;
      && ShowsComment(it, conv[n]) && it.hasJReply == marks[n]
      && (wanted <==> !OwnReply(viewer, conv[n].author, conv[n].body))
    ensures ConversationTold(viewer, conv, marks, items + (if wanted then [it] else []),
                             from + (if wanted then [OfComment(|conv| - 1)] else []))
  {
    var n := |conv| - 1;
    var all := from + (if wanted then [OfComment(n)] else []);
    forall m: nat
      ensures OfComment(m) in all <==> m < |conv| && !OwnReply(viewer, conv[m].author, conv[m].body)
    {
      assert OfComment(m) in all <==> OfComment(m) in from || (wanted && m == n);
    }
  }

  lemma {:induction false} ConversationOrigins(viewer: string, conv: seq<Comment>, marks: seq<bool>) returns (from: seq<Origin>)
    requires |marks| == |conv|
    ensures ConversationTold(viewer, conv, marks, ConversationItems(viewer, conv, marks), from)
    decreases |conv|
  {
    from := [];
    if conv != [] {
      var n := |conv| - 1;
      var before := ConversationOrigins(viewer, conv[..n], marks[..n]);
      ReplyIsOwn(conv[n].body, conv[n].author, viewer);
      CommentShown(conv[n], marks[n]);
      var wanted := !conv[n].Reply(viewer);
      ConversationNext(viewer, conv, marks, ConversationItems(viewer, conv[..n], marks[..n]), before,
                       ConversationItem(conv[n], marks[n]), wanted);
      from := before + if wanted then [OfComment(n)] else [];
    }
  }

  /** The items of one thread and the positions they come from. */
  ghost predicate ThreadTold(viewer: string, th: Thread, comments: seq<ReviewComment>, marks: seq<bool>, t: nat,
                             items: seq<Item>, from: seq<Origin>)
  {
    && |marks| == |comments| && |from| == |items| && InOrder(from)
    && (forall k :: 0 <= k < |from| ==>
          && from[k].OfThread? && from[k].t == t && from[k].i < |comments|
          && ShowsThreadComment(items[k], th, comments[from[k].i]) && items[k].hasJReply == marks[from[k].i])
    && (forall i: nat :: OfThread(t, i) in from <==> i < |comments| && !OwnReply(viewer, comments[i].author, comments[i].body))
  }

  lemma ThreadCommentShown(th: Thread, c: ReviewComment, replied: bool)
    ensures ShowsThreadComment(ThreadItem(th, c, replied), th, c) && ThreadItem(th, c, replied).hasJReply == replied
  {
  }

  lemma ThreadNext(viewer: string, th: Thread, comments: seq<ReviewComment>, marks: seq<bool>, t: nat,
                   items: seq<Item>, from: seq<Origin>, it: Item, wanted: bool)
    requires |marks| == |comments| > 0
    requires ThreadTold(viewer, th, comments[..|comments| - 1], marks[..|comments| - 1], t, items, from)
    requires var n := |comments| - 1;
      && ShowsThreadComment(it, th, comments[n]) && it.hasJReply == marks[n]
      && (wanted <==> !OwnReply(viewer, comments[n].author, comments[n].body))
    ensures ThreadTold(viewer, th, comments, marks, t, items + (if wanted then [it] else []),
                       from + (if wanted then [OfThread(t, |comments| - 1)] else []))
  {
    var n := |comments| - 1;
    var all := from + (if wanted then [OfThread(t, n)] else []);
    forall m: nat
      ensures OfThread(t, m) in all <==> m < |comments| && !OwnReply(viewer, comments[m].author, comments[m].body)
    {
      assert OfThread(t, m) in all <==> OfThread(t, m) in from || (wanted && m == n);
    }
  }

  lemma {:induction false} ThreadOrigins(viewer: string, th: Thread, comments: seq<ReviewComment>, marks: seq<bool>, t: nat)
    returns (from: seq<Origin>)
    requires |marks| == |comments|
    ensures ThreadTold(viewer, th, comments, marks, t, ThreadItems(viewer, th, comments, marks), from)
    decreases |comments|
  {
    from := [];
    if comments != [] {
      var n := |comments| - 1;
      var before := ThreadOrigins(viewer, th, comments[..n], marks[..n], t);
      ReplyIsOwn(comments[n].body, comments[n].author, viewer);
      ThreadCommentShown(th, comments[n], marks[n]);
      var wanted := !comments[n].Reply(viewer);
      ThreadNext(viewer, th, comments, marks, t, ThreadItems(viewer, th, comments[..n], marks[..n]), before,
                 ThreadItem(th, comments[n], marks[n]), wanted);
      from := before + if wanted then [OfThread(t, n)] else [];
    }
  }

  /** The items of the first `|threads|` threads. */
  ghost predicate ThreadsTold(viewer: string, threads: seq<Thread>, marks: seq<seq<bool>>, items: seq<Item>, from: seq<Origin>) {
    && Fits(threads, marks) && |from| == |items| && InOrder(from)
    && (forall k :: 0 <= k < |from| ==> from[k].OfThread? && ThreadShown(threads, marks, from[k].t, from[k].i, items[k]))
    && (forall t: nat, i: nat :: OfThread(t, i) in from <==> ThreadWanted(viewer, threads, t, i))
  }

  ghost predicate ThreadShown(threads: seq<Thread>, marks: seq<seq<bool>>, t: nat, i: nat, it: Item)
    requires Fits(threads, marks)
  {
    && t < |threads| && i < |threads[t].comments|
    && ShowsThreadComment(it, threads[t], threads[t].comments[i]) && it.hasJReply == marks[t][i]
  }

  ghost predicate ThreadWanted(viewer: string, threads: seq<Thread>, t: nat, i: nat) {
    && t < |threads| && i < |threads[t].comments|
    && !OwnReply(viewer, threads[t].comments[i].author, threads[t].comments[i].body)
  }

  lemma ThreadsNext(viewer: string, threads: seq<Thread>, marks: seq<seq<bool>>,
                    items: seq<Item>, from: seq<Origin>, more: seq<Item>, last: seq<Origin>)
    requires Fits(threads, marks) && threads != []
    requires var n := |threads| - 1;
      && ThreadsTold(viewer, threads[..n], marks[..n], items, from)
      && ThreadTold(viewer, threads[n], threads[n].comments, marks[n], n, more, last)
    ensures ThreadsTold(viewer, threads, marks, items + more, from + last)
  {
    var n := |threads| - 1;
    var all, both := from + last, items + more;
    forall k | 0 <= k < |all|
      ensures all[k].OfThread? && ThreadShown(threads, marks, all[k].t, all[k].i, both[k])
    {
      if k < |from| {
        assert ThreadShown(threads[..n], marks[..n], from[k].t, from[k].i, items[k]);
      }
    }
    forall t: nat, i: nat
      ensures OfThread(t, i) in all <==> ThreadWanted(viewer, threads, t, i)
    {
      assert OfThread(t, i) in all <==> OfThread(t, i) in from || OfThread(t, i) in last;
      assert OfThread(t, i) in from <==> ThreadWanted(viewer, threads[..n], t, i);
      if OfThread(t, i) in last {
        assert t == n;
      }
    }
  }

  lemma {:induction false} ThreadsOrigins(viewer: string, threads: seq<Thread>, marks: seq<seq<bool>>) returns (from: seq<Origin>)
    requires Fits(threads, marks)
    ensures ThreadsTold(viewer, threads, marks, AllThreadItems(viewer, threads, marks), from)
    decreases |threads|
  {
    from := [];
    if threads != [] {
      var n := |threads| - 1;
      var before := ThreadsOrigins(viewer, threads[..n], marks[..n]);
      var last := ThreadOrigins(viewer, threads[n], threads[n].comments, marks[n], n);
      ThreadsNext(viewer, threads, marks, AllThreadItems(viewer, threads[..n], marks[..n]), before,
                  ThreadItems(viewer, threads[n], threads[n].comments, marks[n]), last);
      from := before + last;
    }
  }

  ghost predicate ReviewWanted(viewer: string, reviews: seq<Review>, n: nat) {
    n < |reviews| && !AllSpace(reviews[n].body) && !OwnReply(viewer, reviews[n].author, reviews[n].body)
  }

  ghost predicate ReviewsTold(viewer: string, reviews: seq<Review>, items: seq<Item>, from: seq<Origin>) {
    && |from| == |items| && InOrder(from)
    && (forall k :: 0 <= k < |from| ==> from[k].OfReview? && from[k].n < |reviews| && ShowsReview(items[k], reviews[from[k].n]))
    && (forall n: nat :: OfReview(n) in from <==> ReviewWanted(viewer, reviews, n))
  }

  lemma SummaryShown(r: Review)
    ensures ShowsReview(SummaryItem(r), r)
  {
  }

  /** One more review: with an item of its own, or without when it is not wanted. */
  lemma ReviewsNext(viewer: string, reviews: seq<Review>, items: seq<Item>, from: seq<Origin>, it: Item, wanted: bool)
    requires reviews != [] && ReviewsTold(viewer, reviews[..|reviews| - 1], items, from)
    requires ShowsReview(it, reviews[|reviews| - 1]) && (wanted <==> ReviewWanted(viewer, reviews, |reviews| - 1))
    ensures ReviewsTold(viewer, reviews, items + (if wanted then [it] else []),
                        from + (if wanted then [OfReview(|reviews| - 1)] else []))
  {
    var n := |reviews| - 1;
    var all := from + (if wanted then [OfReview(n)] else []);
    forall m: nat
      ensures OfReview(m) in all <==> ReviewWanted(viewer, reviews, m)
    {
      assert OfReview(m) in from <==> ReviewWanted(viewer, reviews[..n], m);
      assert OfReview(m) in all <==> OfReview(m) in from || (wanted && m == n);
    }
  }

  lemma {:induction false} ReviewOrigins(viewer: string, reviews: seq<Review>) returns (from: seq<Origin>)
    ensures ReviewsTold(viewer, reviews, SummaryItems(viewer, reviews), from)
    decreases |reviews|
  {
    from := [];
    if reviews != [] {
      var n := |reviews| - 1;
      var before := ReviewOrigins(viewer, reviews[..n]);
      SkippedIs(reviews[n], viewer);
      SummaryShown(reviews[n]);
      var wanted := !reviews[n].Skipped(viewer);
      ReviewsNext(viewer, reviews, SummaryItems(viewer, reviews[..n]), before, SummaryItem(reviews[n]), wanted);
      from := before + if wanted then [OfReview(n)] else [];
    }
  }

  // ---- The flags. ----

  lemma CommentFlag(viewer: string, conv: seq<Comment>, i: nat)
    requires i < |conv|
    ensures IndexMarks(viewer, conv)[i] <==> exists j: nat :: ReplyFollows(viewer, conv, conv[i].id, j)
  {
    var id := ConversationSourceID(conv[i].id);
    forall j: nat
      ensures Answered(viewer, conv, j) && ConversationSourceID(conv[j].id) == id <==> ReplyFollows(viewer, conv, conv[i].id, j)
    {
      if j + 1 < |conv| {
        ReplyIsOwn(conv[j + 1].body, conv[j + 1].author, viewer);
        if ConversationSourceID(conv[j].id) == id {
          SameTail("issue-comment:", conv[j].id, conv[i].id);
        }
      }
    }
    if j: nat :| ReplyFollows(viewer, conv, conv[i].id, j) {
      assert Answered(viewer, conv, j) && ConversationSourceID(conv[j].id) == id;
    }
  }

  /** The comments looked up for an id are those of the last thread with it. */
  lemma {:induction false} LastThread(threads: seq<Thread>, t: nat) returns (u: nat)
    requires t < |threads|
    ensures u < |threads| && threads[u].id == threads[t].id && LastComments(threads, threads[t].id) == threads[u].comments
    ensures forall v :: u < v < |threads| ==> threads[v].id != threads[t].id
    decreases |threads|
  {
    var n := |threads| - 1;
    if threads[n].id == threads[t].id {
      u := n;
    } else {
      u := LastThread(threads[..n], t);
    }
  }

  lemma ThreadFlag(viewer: string, threads: seq<Thread>, t: nat, i: nat)
    requires t < |threads| && i < |threads[t].comments|
    ensures IndexThreadMarks(viewer, threads)[t][i] <==> exists u: nat :: ThreadReplyFollows(viewer, threads, threads[t].id, i, u)
  {
    var u := LastThread(threads, t);
    var last := threads[u].comments;
    if i + 1 < |last| {
      ReplyIsOwn(last[i + 1].body, last[i + 1].author, viewer);
    }
    if w: nat :| ThreadReplyFollows(viewer, threads, threads[t].id, i, w) {
      assert w == u;
    }
    assert AnsweredInThread(viewer, last, i) <==> ThreadReplyFollows(viewer, threads, threads[t].id, i, u);
  }

  // ---- The whole list. ----

  /** The three parts one after the other. */
  lemma PartsTold(viewer: string, conv: seq<Comment>, threads: seq<Thread>, reviews: seq<Review>,
                  a: seq<Item>, x: seq<Origin>, b: seq<Item>, y: seq<Origin>, c: seq<Item>, z: seq<Origin>)
    requires ConversationTold(viewer, conv, IndexMarks(viewer, conv), a, x)
    requires ThreadsTold(viewer, threads, IndexThreadMarks(viewer, threads), b, y)
    requires ReviewsTold(viewer, reviews, c, z)
    ensures Told(viewer, conv, threads, reviews, a + b + c, x + y + z)
  {
    var items, from := a + b + c, x + y + z;
    forall k | 0 <= k < |from|
      ensures Shows(conv, threads, reviews, from[k], items[k]) && Flags(viewer, conv, threads, from[k], items[k])
    {
      if k < |x| {
        CommentFlag(viewer, conv, x[k].i);
      } else if k < |x| + |y| {
        var o := y[k - |x|];
        assert ThreadShown(threads, IndexThreadMarks(viewer, threads), o.t, o.i, b[k - |x|]);
        ThreadFlag(viewer, threads, o.t, o.i);
      }
    }
    forall o: Origin
      ensures o in from <==> Wanted(viewer, conv, threads, reviews, o)
    {
      assert o in from <==> o in x || o in y || o in z;
      match o {
        case OfComment(i) =>
        case OfThread(t, i) => assert o in y <==> ThreadWanted(viewer, threads, t, i);
        case OfReview(n) => assert o in z <==> ReviewWanted(viewer, reviews, n);
      }
    }
  }

  /** The flattened feedback is exactly what is wanted, in order, with the fields and flags of its origins. */
  lemma FeedbackTold(viewer: string, conv: seq<Comment>, threads: seq<Thread>, reviews: seq<Review>) returns (from: seq<Origin>)
    ensures Told(viewer, conv, threads, reviews,
      Flattened(viewer, conv, IndexMarks(viewer, conv), threads, IndexThreadMarks(viewer, threads), reviews), from)
  {
    var x := ConversationOrigins(viewer, conv, IndexMarks(viewer, conv));
    var y := ThreadsOrigins(viewer, threads, IndexThreadMarks(viewer, threads));
    var z := ReviewOrigins(viewer, reviews);
    PartsTold(viewer, conv, threads, reviews,
              ConversationItems(viewer, conv, IndexMarks(viewer, conv)), x,
              AllThreadItems(viewer, threads, IndexThreadMarks(viewer, threads)), y, SummaryItems(viewer, reviews), z);
    from := x + y + z;
  }

  /** There is only one such list of origins, and so only one such list of items. */
  lemma ToldUnique(viewer: string, conv: seq<Comment>, threads: seq<Thread>, reviews: seq<Review>,
                   items: seq<Item>, from: seq<Origin>, items': seq<Item>, from': seq<Origin>)
    requires Told(viewer, conv, threads, reviews, items, from) && Told(viewer, conv, threads, reviews, items', from')
    ensures from == from' && items == items'
  {
    SameOrder(from, from');
    forall k | 0 <= k < |items|
      ensures items[k] == items'[k]
    {
      assert Shows(conv, threads, reviews, from[k], items[k]) && Flags(viewer, conv, threads, from[k], items[k]);
      assert Shows(conv, threads, reviews, from[k], items'[k]) && Flags(viewer, conv, threads, from[k], items'[k]);
    }
  }

  /** Two ordered lists with the same members are the same. */
  lemma {:induction false} SameOrder(a: seq<Origin>, b: seq<Origin>)
    requires InOrder(a) && InOrder(b) && forall o: Origin :: o in a <==> o in b
    ensures a == b
    decreases |a|
  {
    if a == [] {
      if b != [] {
        HasMember(b);
      }
    } else {
      assert a[0] in a && a[0] in b && b != [] && b[0] in b && b[0] in a;
      FirstSame(a, b);
      forall o: Origin
        ensures o in a[1..] <==> o in b[1..]
      {
        RestMembers(a, o);
        RestMembers(b, o);
      }
      SameOrder(a[1..], b[1..]);
      assert a == [a[0]] + a[1..] && b == [b[0]] + b[1..];
    }
  }

  lemma FirstSame(a: seq<Origin>, b: seq<Origin>)
    requires InOrder(a) && InOrder(b) && a != [] && b != [] && a[0] in b && b[0] in a
    ensures a[0] == b[0]
  {
    var i :| 0 <= i < |b| && b[i] == a[0];
    var j :| 0 <= j < |a| && a[j] == b[0];
    assert i > 0 ==> Before(b[0], a[0]);
    assert j > 0 ==> Before(a[0], b[0]);
    NotBothBefore(a[0], b[0]);
  }

  lemma NotBothBefore(x: Origin, y: Origin)
    ensures !Before(x, y) || !Before(y, x)
  {
  }

  lemma HasMember(b: seq<Origin>)
    requires b != []
    ensures exists o: Origin :: o in b
  {
    assert b[0] in b;
  }

  lemma RestMembers(a: seq<Origin>, o: Origin)
    requires InOrder(a) && a != []
    ensures o in a[1..] <==> o in a && o != a[0]
  {
    if o in a && o != a[0] {
      var i :| 0 <= i < |a| && a[i] == o;
      assert a[1..][i - 1] == o;
    }
    if o in a[1..] {
      var i :| 0 <= i < |a[1..]| && a[1..][i] == o;
      assert Before(a[0], a[i + 1]);
    }
  }

  // ---- From the service's answers. ----

  /** The items of a successful fetch are the feedback of all pages, and the pull request was open. */
  ghost predicate FetchTold(a: Answers, c: Run<Comment>, t: Run<Thread>, r: Run<Review>, items: seq<Item>, from: seq<Origin>) {
    && a.viewer.Ok? && a.first.Ok? && a.first.value.Some?
    && var first := a.first.value.value;
       && !first.merged && first.state != "CLOSED" && !first.draft
       && c.end.None? && t.end.None? && r.end.None?
       && Told(a.viewer.value, All(first.comments, c), All(first.threads, t), All(first.reviews, r), items, from)
  }

  lemma GatheredTold(a: Answers, c: Run<Comment>, t: Run<Thread>, r: Run<Review>) returns (from: seq<Origin>)
    requires Failure(a, c, t, r) == None
    ensures FetchTold(a, c, t, r, Gathered(a, c, t, r), from)
  {
    var first := a.first.value.value;
    from := FeedbackTold(a.viewer.value, All(first.comments, c), All(first.threads, t), All(first.reviews, r));
  }

  /** The first failing step decides the error: viewer, first page, absence, then merged before closed before draft. */
  lemma FailureOrder(a: Answers, c: Run<Comment>, t: Run<Thread>, r: Run<Review>)
    ensures a.viewer.Err? ==> Failure(a, c, t, r) == Some(a.viewer.error)
    ensures a.viewer.Ok? && a.first.Err? ==> Failure(a, c, t, r) == Some(a.first.error)
    ensures a.viewer.Ok? && a.first == Ok(None) ==> Failure(a, c, t, r) == Some(PrFetch.NotFound)
    ensures a.viewer.Ok? && a.first.Ok? && a.first.value.Some? ==>
      var first := a.first.value.value;
      && (first.merged ==> Failure(a, c, t, r) == Some(PrFetch.Merged))
      && (!first.merged && first.state == "CLOSED" ==> Failure(a, c, t, r) == Some(PrFetch.Closed))
      && (!first.merged && first.state != "CLOSED" && first.draft ==> Failure(a, c, t, r) == Some(PrFetch.Draft))
      && (!first.merged && first.state != "CLOSED" && !first.draft ==>
            Failure(a, c, t, r) == if c.end.Some? then c.end else if t.end.Some? then t.end else r.end)
  {
  }
}
