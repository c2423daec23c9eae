/**
 * The cursor-following walk shared by the attachment and content listings:
 * fetch a page, keep its results, and continue at the base URL followed by
 * `_links.next` until a page has no `next`.
 *
 * The source's loop has no bound, so a cyclic chain of cursors would never
 * end. The specification therefore carries fuel, a bound on the number of
 * pages; running out of it is an outcome of its own, which the methods that
 * implement the walk exclude by precondition (the chain ends within the bound).
 */
module Walker {
  import opened Wrappers
  import opened Records
  import opened Transport
  import opened Urls

  datatype Outcome = Finished | Aborted(error: FetchError) | OutOfFuel

  /**
   * What a walk did: the URLs it requested, in order, the items it collected,
   * and how it ended.
   */
  datatype Walk<T> = Walk(requests: seq<string>, items: seq<T>, outcome: Outcome)

  /** The walk from `url` with at most `fuel` page fetches. */
  function WalkFrom<T>(c: Confluence, server: Server<T>, url: string, fuel: nat): (w: Walk<T>)
    ensures |w.requests| <= fuel
    ensures fuel > 0 ==> |w.requests| > 0 && w.requests[0] == url
    ensures w.outcome == OutOfFuel ==> |w.requests| == fuel
    decreases fuel
  {
    if fuel == 0 then Walk([], [], OutOfFuel)
    else
      match ApiCall(server, url)
      case Err(e) => Walk([url], [], Aborted(e))
      case Ok(page) =>
        if page.next.None? then Walk([url], page.results, Finished)
        else
          var rest := WalkFrom(c, server, NextUrl(c, page.next.value), fuel - 1);
          Walk([url] + rest.requests, page.results + rest.items, rest.outcome)
  }

  /**
   * What a walk that did not run out of fuel amounts to for its caller: the
   * collected items, or the error that aborted it.
   */
  function WalkResult<T>(w: Walk<T>): (r: Result<seq<T>, FetchError>)
    requires w.outcome != OutOfFuel
    ensures r.Ok? <==> w.outcome == Finished
    ensures r.Ok? ==> r.value == w.items
    ensures r.Err? ==> w.outcome == Aborted(r.error)
  {
    if w.outcome == Finished then Ok(w.items) else Err(w.outcome.error)
  }

  /** Every URL of `urls` fetches a page successfully. */
  ghost predicate AllFetch<T>(server: Server<T>, urls: seq<string>) {
    forall i :: 0 <= i < |urls| ==> ApiCall(server, urls[i]).Ok?
  }

  /**
   * Every URL of `urls` but the last fetches a page whose cursor, stitched
   * onto the base URL, is the URL that follows it.
   */
  ghost predicate Linked<T>(c: Confluence, server: Server<T>, urls: seq<string>) {
    forall i :: 0 <= i < |urls| - 1 ==>
      && ApiCall(server, urls[i]).Ok?
      && ApiCall(server, urls[i]).value.next.Some?
      && urls[i + 1] == NextUrl(c, ApiCall(server, urls[i]).value.next.value)
  }

  /** A complete page chain: linked, and its last page fetches and has no cursor. */
  ghost predicate Chain<T>(c: Confluence, server: Server<T>, urls: seq<string>) {
    && |urls| > 0
    && Linked(c, server, urls)
    && ApiCall(server, urls[|urls| - 1]).Ok?
    && ApiCall(server, urls[|urls| - 1]).value.next.None?
  }

  /** The results of the pages at `urls`, concatenated in order. */
  ghost function Collected<T>(server: Server<T>, urls: seq<string>): seq<T>
    requires AllFetch(server, urls)
  {
    if urls == [] then [] else ApiCall(server, urls[0]).value.results + Collected(server, urls[1..])
  }

  lemma LinkedTail<T>(c: Confluence, server: Server<T>, urls: seq<string>)
    requires |urls| > 0 && Linked(c, server, urls)
    ensures Linked(c, server, urls[1..])
  {
    var tail := urls[1..];
    forall i | 0 <= i < |tail| - 1
      ensures ApiCall(server, tail[i]).Ok? && ApiCall(server, tail[i]).value.next.Some?
      ensures tail[i + 1] == NextUrl(c, ApiCall(server, tail[i]).value.next.value)
    {
      assert tail[i] == urls[i + 1] && tail[i + 1] == urls[i + 2];
    }
  }

  lemma LinkedCons<T>(c: Confluence, server: Server<T>, url: string, n: string, rest: seq<string>)
    requires ApiCall(server, url).Ok? && ApiCall(server, url).value.next == Some(n)
    requires |rest| > 0 && rest[0] == NextUrl(c, n) && Linked(c, server, rest)
    ensures Linked(c, server, [url] + rest)
  {
    var urls := [url] + rest;
    forall i | 0 <= i < |urls| - 1
      ensures ApiCall(server, urls[i]).Ok? && ApiCall(server, urls[i]).value.next.Some?
      ensures urls[i + 1] == NextUrl(c, ApiCall(server, urls[i]).value.next.value)
    {
      if i > 0 {
        assert urls[i] == rest[i - 1] && urls[i + 1] == rest[i];
      }
    }
  }

  /**
   * Pagination completeness: along a complete chain p1 .. pk that starts at
   * the walk's URL, the walk requests exactly the chain's URLs, in order, and
   * collects p1.results ++ .. ++ pk.results. Pages with no results but a
   * cursor are allowed anywhere in the chain and do not end it.
   */
  lemma {:induction false} WalkFollowsChain<T>(c: Confluence, server: Server<T>, urls: seq<string>, fuel: nat)
    requires Chain(c, server, urls) && |urls| <= fuel
    ensures AllFetch(server, urls)
    ensures WalkFrom(c, server, urls[0], fuel) == Walk(urls, Collected(server, urls), Finished)
    decreases |urls|
  {
    if |urls| > 1 {
      var tail := urls[1..];
      LinkedTail(c, server, urls);
      assert tail[|tail| - 1] == urls[|urls| - 1];
      WalkFollowsChain(c, server, tail, fuel - 1);
      assert urls == [urls[0]] + tail;
    }
  }

  /**
   * Conversely, a walk that finishes followed a complete chain from its
   * start URL and collected exactly the results of that chain's pages.
   */
  lemma {:induction false} FinishedWalkFollowedChain<T>(c: Confluence, server: Server<T>, url: string, fuel: nat)
    requires WalkFrom(c, server, url, fuel).outcome == Finished
    ensures var w := WalkFrom(c, server, url, fuel);
      && Chain(c, server, w.requests) && w.requests[0] == url
      && AllFetch(server, w.requests) && w.items == Collected(server, w.requests)
    decreases fuel
  {
    var page := ApiCall(server, url).value;
    if page.next.Some? {
      var next := NextUrl(c, page.next.value);
      var rest := WalkFrom(c, server, next, fuel - 1);
      FinishedWalkFollowedChain(c, server, next, fuel - 1);
      LinkedCons(c, server, url, page.next.value, rest.requests);
      assert ([url] + rest.requests)[1..] == rest.requests;
    }
  }

  /**
   * Failure propagation: when the last URL of a linked prefix fails to fetch,
   * the walk stops there with that error, having requested exactly the
   * prefix, the failing URL last.
   */
  lemma {:induction false} WalkAbortsAt<T>(c: Confluence, server: Server<T>, urls: seq<string>, fuel: nat)
    requires 0 < |urls| <= fuel && Linked(c, server, urls) && ApiCall(server, urls[|urls| - 1]).Err?
    ensures AllFetch(server, urls[..|urls| - 1])
    ensures WalkFrom(c, server, urls[0], fuel)
         == Walk(urls, Collected(server, urls[..|urls| - 1]), Aborted(ApiCall(server, urls[|urls| - 1]).error))
    decreases |urls|
  {
    if |urls| > 1 {
      var tail := urls[1..];
      LinkedTail(c, server, urls);
      assert tail[|tail| - 1] == urls[|urls| - 1];
      WalkAbortsAt(c, server, tail, fuel - 1);
      assert urls == [urls[0]] + tail;
      assert urls[..|urls| - 1] == [urls[0]] + tail[..|tail| - 1];
    }
  }

  /**
   * Conversely, a walk that aborts does so at its last request, whose fetch
   * failed with the reported error, after following cursors to get there.
   */
  lemma {:induction false} AbortedWalkFailedLast<T>(c: Confluence, server: Server<T>, url: string, fuel: nat)
    requires WalkFrom(c, server, url, fuel).outcome.Aborted?
    ensures var w := WalkFrom(c, server, url, fuel);
      && 0 < |w.requests| && w.requests[0] == url && Linked(c, server, w.requests)
      && ApiCall(server, w.requests[|w.requests| - 1]) == Err(w.outcome.error)
    decreases fuel
  {
    match ApiCall(server, url)
    case Err(_) =>
    case Ok(page) =>
      var next := NextUrl(c, page.next.value);
      var rest := WalkFrom(c, server, next, fuel - 1);
      AbortedWalkFailedLast(c, server, next, fuel - 1);
      LinkedCons(c, server, url, page.next.value, rest.requests);
  }

  /** Fuel is only a bound: once a walk ends within it, more fuel changes nothing. */
  lemma {:induction false} WalkFuelSuffices<T>(c: Confluence, server: Server<T>, url: string, f: nat, g: nat)
    requires f <= g && WalkFrom(c, server, url, f).outcome != OutOfFuel
    ensures WalkFrom(c, server, url, g) == WalkFrom(c, server, url, f)
    decreases f
  {
    match ApiCall(server, url)
    case Err(_) =>
    case Ok(page) =>
      if page.next.Some? {
        WalkFuelSuffices(c, server, NextUrl(c, page.next.value), f - 1, g - 1);
      }
  }

  /** A page with no results but a cursor does not end the walk. */
  lemma EmptyPageContinues<T>(c: Confluence, server: Server<T>, url: string, n: string, fuel: nat)
    requires ApiCall(server, url) == Ok(Page([], Some(n))) && fuel > 0
    ensures var rest := WalkFrom(c, server, NextUrl(c, n), fuel - 1);
      WalkFrom(c, server, url, fuel) == Walk([url] + rest.requests, rest.items, rest.outcome)
  {
  }

  /** The walk ends at the first page without a cursor and requests nothing after it. */
  lemma LastPageEndsWalk<T>(c: Confluence, server: Server<T>, url: string, page: Page<T>, fuel: nat)
    requires ApiCall(server, url) == Ok(page) && page.next.None? && fuel > 0
    ensures WalkFrom(c, server, url, fuel) == Walk([url], page.results, Finished)
  {
  }
}
