/** Draining the paginated connections of a pull request. */
module PrFetch {
  import opened Common

  datatype PageInfo = PageInfo(hasNext: bool, endCursor: string)

  datatype Page<+N> = Page(info: PageInfo, nodes: seq<N>)

  datatype FetchError = Unreachable(message: string) | NotFound | Merged | Closed | Draft

  /** What the service answers to the `turn`-th follow-up request, made with the given cursor. */
  type Service<!N> = (nat, string) -> Result<Page<N>, FetchError>

  /**
   * From `info` on, the service answers exactly `pages`, and then the connection ends:
   * normally, or with an error answer.
   */
  ghost predicate Chain<N>(srv: Service<N>, turn: nat, info: PageInfo, pages: seq<Page<N>>, end: Option<FetchError>)
    decreases |pages|
  {
    if !info.hasNext then pages == [] && end == None
    else match srv(turn, info.endCursor)
      case Err(e) => pages == [] && end == Some(e)
      case Ok(p) => pages != [] && pages[0] == p && Chain(srv, turn + 1, p.info, pages[1..], end)
  }

  function Nodes<N>(pages: seq<Page<N>>): seq<N> {
    if pages == [] then [] else pages[0].nodes + Nodes(pages[1..])
  }

  /** What draining a connection with that chain gives: every node in order, or the error. */
  function Drained<N>(first: seq<N>, pages: seq<Page<N>>, end: Option<FetchError>): Result<seq<N>, FetchError> {
    match end case None => Ok(first + Nodes(pages)) case Some(e) => Err(e)
  }

  /** The service fixes the chain, so `Drained` is a function of the service's answers. */
  lemma {:induction false} ChainUnique<N>(srv: Service<N>, turn: nat, info: PageInfo,
        pages: seq<Page<N>>, end: Option<FetchError>, pages': seq<Page<N>>, end': Option<FetchError>)
    requires Chain(srv, turn, info, pages, end) && Chain(srv, turn, info, pages', end')
    ensures pages == pages' && end == end'
    decreases |pages|
  {
    if info.hasNext && srv(turn, info.endCursor).Ok? {
      ChainUnique(srv, turn + 1, pages[0].info, pages[1..], end, pages'[1..], end');
      assert pages == [pages[0]] + pages[1..] && pages' == [pages'[0]] + pages'[1..];
    }
  }

  /** The drain loop: a finite chain makes it end, with every node in order or the first error. */
  method FetchPaged<N>(srv: Service<N>, info: PageInfo, first: seq<N>,
        ghost pages: seq<Page<N>>, ghost end: Option<FetchError>)
    returns (r: Result<seq<N>, FetchError>, asked: nat)
    requires Chain(srv, 0, info, pages, end)
    ensures r == Drained(first, pages, end)
    ensures asked == |pages| + if end.Some? then 1 else 0
  {
    var out, cur := first, info;
    asked := 0;
    ghost var rest := pages;
    while cur.hasNext
      invariant Chain(srv, asked, cur, rest, end)
      invariant asked + |rest| == |pages|
      invariant out + Nodes(rest) == first + Nodes(pages)
      decreases |rest|
    {
      var answer := srv(asked, cur.endCursor);
      asked := asked + 1;
      if answer.Err? {
        return Err(answer.error), asked;
      }
      out, cur := out + answer.value.nodes, answer.value.info;
      rest := rest[1..];
    }
    assert out + Nodes(rest) == out;
    r := Ok(out);
  }

  /** The drain loop cut off after `fuel` requests; `None` when it had not ended by then. */
  function Cut<N>(srv: Service<N>, turn: nat, info: PageInfo, out: seq<N>, fuel: nat): Option<Result<seq<N>, FetchError>>
    decreases fuel
  {
    if !info.hasNext then Some(Ok(out))
    else if fuel == 0 then None
    else match srv(turn, info.endCursor)
      case Err(e) => Some(Err(e))
      case Ok(p) => Cut(srv, turn + 1, p.info, out + p.nodes, fuel - 1)
  }

  lemma {:induction false} CutHasChain<N>(srv: Service<N>, turn: nat, info: PageInfo, out: seq<N>, fuel: nat)
    returns (pages: seq<Page<N>>, end: Option<FetchError>)
    requires Cut(srv, turn, info, out, fuel).Some?
    ensures Chain(srv, turn, info, pages, end)
    decreases fuel
  {
    pages, end := [], None;
    if info.hasNext {
      match srv(turn, info.endCursor)
      case Err(e) =>
        end := Some(e);
      case Ok(p) =>
        pages, end := CutHasChain(srv, turn + 1, p.info, out + p.nodes, fuel - 1);
        assert ([p] + pages)[1..] == pages;
        pages := [p] + pages;
    }
  }

  lemma {:induction false} ChainCuts<N>(srv: Service<N>, turn: nat, info: PageInfo, out: seq<N>,
        pages: seq<Page<N>>, end: Option<FetchError>)
    requires Chain(srv, turn, info, pages, end)
    ensures Cut(srv, turn, info, out, |pages| + 1) == Some(Drained(out, pages, end))
    decreases |pages|
  {
    if pages == [] {
      assert out + Nodes(pages) == out;
    } else {
      ChainCuts(srv, turn + 1, pages[0].info, out + pages[0].nodes, pages[1..], end);
      assert out + pages[0].nodes + Nodes(pages[1..]) == out + Nodes(pages);
    }
  }

  ghost predicate EndsWithin<N>(srv: Service<N>, info: PageInfo, out: seq<N>, fuel: nat) {
    Cut(srv, 0, info, out, fuel).Some?
  }

  ghost predicate FiniteChain<N(!new)>(srv: Service<N>, info: PageInfo) {
    exists pages, end :: Chain(srv, 0, info, pages, end)
  }

  /** The loop ends exactly on a finite chain: a service whose pages lead in a circle keeps it going. */
  lemma EndsIffFiniteChain<N(!new)>(srv: Service<N>, info: PageInfo, out: seq<N>)
    ensures FiniteChain(srv, info) <==> exists fuel: nat :: EndsWithin(srv, info, out, fuel)
  {
    if fuel: nat :| EndsWithin(srv, info, out, fuel) {
      var pages, end := CutHasChain(srv, 0, info, out, fuel);
    }
    if FiniteChain(srv, info) {
      var pages, end :| Chain(srv, 0, info, pages, end);
      ChainCuts(srv, 0, info, out, pages, end);
      assert EndsWithin(srv, info, out, |pages| + 1);
    }
  }

  /** A service that answers every request with the same page, whose cursor leads back to it. */
  function Circle(): Service<string> { (turn: nat, cursor: string) => Ok(Page(PageInfo(true, "c"), ["n"])) }

  lemma {:induction false} CircleCut(turn: nat, out: seq<string>, fuel: nat)
    ensures Cut(Circle(), turn, PageInfo(true, "c"), out, fuel) == None
    decreases fuel
  {
    if fuel > 0 {
      CircleCut(turn + 1, out + ["n"], fuel - 1);
    }
  }

  /** Drained from there, the loop never ends. */
  lemma CircleNeverEnds()
    ensures !FiniteChain(Circle(), PageInfo(true, "c"))
  {
    EndsIffFiniteChain(Circle(), PageInfo(true, "c"), []);
    forall fuel: nat ensures !EndsWithin(Circle(), PageInfo(true, "c"), [], fuel) {
      CircleCut(0, [], fuel);
    }
  }

  /** Merged wins over closed because a merged pull request is also reported closed. */
  function GuardState(state: string, merged: bool, draft: bool): Option<FetchError> {
    if merged then Some(Merged)
    else if state == "CLOSED" then Some(Closed)
    else if draft then Some(Draft)
    else None
  }
}
