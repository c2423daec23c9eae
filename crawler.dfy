/**
 * The crawler proper: `Confluence::fetch_attachments`, which collects every
 * attachment of one content item and one media type, and
 * `Confluence::process_all_contents`, which walks the content listing and,
 * for each content item and each media type, prints one line per attachment.
 *
 * Printed lines are returned as a sequence, one element per `println!`. A
 * fetch that fails ends the run with `Aborted`, in place of the source's
 * panic; the lines printed before it are kept.
 */
module Crawler {
  import opened Wrappers
  import opened Records
  import opened Decimal
  import opened Transport
  import opened Urls
  import opened Walker

  /** The two listings the crawler reads, as the server answers them. */
  datatype Api = Api(contents: Server<Content>, attachments: Server<Attachment>)

  /** The lines a run printed, and how it ended. */
  datatype Run = Run(lines: seq<string>, outcome: Outcome)

  /** Printed after every content page that has a `next` cursor. */
  const NextPageNotice: string := "Fetching next page of contents...\n"

  /** Printed after the last content page. */
  const DoneNotice: string := "All contents processed."

  /** `lines` printed, then everything `r` printed, ending as `r` ends. */
  function Then(lines: seq<string>, r: Run): Run {
    Run(lines + r.lines, r.outcome)
  }

  /** The attachment walk of one content item and one media type. */
  function AttachmentWalk(c: Confluence, api: Api, contentId: string, mediaType: string, limit: u32, bound: nat): Walk<Attachment> {
    WalkFrom(c, api.attachments, AttachmentsUrl(c, contentId, limit, mediaType), bound)
  }

  /**
   * `fetch_attachments`: walks the attachment listing of one content item
   * and one media type and returns every attachment of every page, or the
   * error of the first fetch that fails. The ghost `bound` is a number of
   * pages within which the chain of cursors ends.
   */
  method FetchAttachments(c: Confluence, server: Server<Attachment>, contentId: string, mediaType: string, limit: u32, ghost bound: nat)
    returns (r: Result<seq<Attachment>, FetchError>)
    requires WalkFrom(c, server, AttachmentsUrl(c, contentId, limit, mediaType), bound).outcome != OutOfFuel
    ensures r == WalkResult(WalkFrom(c, server, AttachmentsUrl(c, contentId, limit, mediaType), bound))
  {
    ghost var start := AttachmentsUrl(c, contentId, limit, mediaType);
    var attachmentUrl := AttachmentsUrl(c, contentId, limit, mediaType);
    var allAttachments: seq<Attachment> := [];
    ghost var fuel := bound;
    while true
      invariant WalkFrom(c, server, attachmentUrl, fuel).outcome == WalkFrom(c, server, start, bound).outcome
      invariant allAttachments + WalkFrom(c, server, attachmentUrl, fuel).items == WalkFrom(c, server, start, bound).items
      decreases fuel
    {
      var response: Result<AttachmentResponse, FetchError> := ApiCall(server, attachmentUrl);
      if response.Err? {
        return Err(response.error);
      }
      allAttachments := allAttachments + response.value.results;
      if response.value.next.Some? {
        attachmentUrl := NextUrl(c, response.value.next.value);
        fuel := fuel - 1;
      } else {
        break;
      }
    }
    r := Ok(allAttachments);
  }

  /** The lines for a list of attachments of one content item, in order. */
  function AttachmentLines(c: Confluence, content: Content, attachments: seq<Attachment>): seq<string> {
    seq(|attachments|, i requires 0 <= i < |attachments| => AttachmentLine(c, content, attachments[i]))
  }

  /** The innermost loop: one line per attachment, in the order received. */
  method PrintAttachments(c: Confluence, content: Content, attachments: seq<Attachment>) returns (lines: seq<string>)
    ensures |lines| == |attachments|
    ensures forall i :: 0 <= i < |attachments| ==> lines[i] == AttachmentLine(c, content, attachments[i])
    ensures lines == AttachmentLines(c, content, attachments)
  {
    lines := [];
    for i := 0 to |attachments|
      invariant |lines| == i
      invariant forall k :: 0 <= k < i ==> lines[k] == AttachmentLine(c, content, attachments[k])
    {
      lines := lines + [AttachmentLine(c, content, attachments[i])];
    }
  }

  /** What the media-type loop prints for one content item. */
  function ContentRun(c: Confluence, api: Api, content: Content, mediaTypes: seq<string>, limit: u32, bound: nat): Run
    decreases |mediaTypes|
  {
    if mediaTypes == [] then Run([], Finished)
    else
      var w := AttachmentWalk(c, api, content.id, mediaTypes[0], limit, bound);
      if w.outcome != Finished then Run([], w.outcome)
      else Then(AttachmentLines(c, content, w.items), ContentRun(c, api, content, mediaTypes[1..], limit, bound))
  }

  /** What the content loop prints for the items of one content page. */
  function PageRun(c: Confluence, api: Api, contents: seq<Content>, mediaTypes: seq<string>, limit: u32, bound: nat): Run
    decreases |contents|
  {
    if contents == [] then Run([], Finished)
    else
      var r := ContentRun(c, api, contents[0], mediaTypes, limit, bound);
      if r.outcome != Finished then r
      else Then(r.lines, PageRun(c, api, contents[1..], mediaTypes, limit, bound))
  }

  /** What the page loop prints from the content page at `url` on, with at most `fuel` pages. */
  function Crawl(c: Confluence, api: Api, mediaTypes: seq<string>, limit: u32, bound: nat, url: string, fuel: nat): Run
    decreases fuel
  {
    if fuel == 0 then Run([], OutOfFuel)
    else
      match ApiCall(api.contents, url)
      case Err(e) => Run([], Aborted(e))
      case Ok(page) =>
        var r := PageRun(c, api, page.results, mediaTypes, limit, bound);
        if r.outcome != Finished then r
        else if page.next.None? then Run(r.lines + [DoneNotice], Finished)
        else Then(r.lines + [NextPageNotice], Crawl(c, api, mediaTypes, limit, bound, NextUrl(c, page.next.value), fuel - 1))
  }

  /** One step of the media-type loop, from the `i`-th media type on. */
  lemma ContentRunAt(c: Confluence, api: Api, content: Content, mediaTypes: seq<string>, i: nat, limit: u32, bound: nat)
    requires i < |mediaTypes|
    ensures var w := AttachmentWalk(c, api, content.id, mediaTypes[i], limit, bound);
      ContentRun(c, api, content, mediaTypes[i..], limit, bound)
        == if w.outcome != Finished then Run([], w.outcome)
           else Then(AttachmentLines(c, content, w.items), ContentRun(c, api, content, mediaTypes[i + 1..], limit, bound))
  {
    assert mediaTypes[i..][1..] == mediaTypes[i + 1..];
  }

  /** One step of the content loop, from the `i`-th content item on. */
  lemma PageRunAt(c: Confluence, api: Api, contents: seq<Content>, i: nat, mediaTypes: seq<string>, limit: u32, bound: nat)
    requires i < |contents|
    ensures var r := ContentRun(c, api, contents[i], mediaTypes, limit, bound);
      PageRun(c, api, contents[i..], mediaTypes, limit, bound)
        == if r.outcome != Finished then r else Then(r.lines, PageRun(c, api, contents[i + 1..], mediaTypes, limit, bound))
  {
    assert contents[i..][1..] == contents[i + 1..];
  }

  /** The media-type loop for one content item. */
  method ProcessContent(c: Confluence, api: Api, content: Content, mediaTypes: seq<string>, limit: u32, ghost bound: nat)
    returns (lines: seq<string>, outcome: Outcome)
    requires ContentRun(c, api, content, mediaTypes, limit, bound).outcome != OutOfFuel
    ensures Run(lines, outcome) == ContentRun(c, api, content, mediaTypes, limit, bound)
  {
    ghost var total := ContentRun(c, api, content, mediaTypes, limit, bound);
    lines := [];
    for i := 0 to |mediaTypes|
      invariant lines + ContentRun(c, api, content, mediaTypes[i..], limit, bound).lines == total.lines
      invariant ContentRun(c, api, content, mediaTypes[i..], limit, bound).outcome == total.outcome
    {
      ContentRunAt(c, api, content, mediaTypes, i, limit, bound);
      var attachments := FetchAttachments(c, api.attachments, content.id, mediaTypes[i], limit, bound);
      if attachments.Err? {
        return lines, Aborted(attachments.error);
      }
      var printed := PrintAttachments(c, content, attachments.value);
      lines := lines + printed;
    }
    outcome := Finished;
  }

  /** The content loop over the items of one content page. */
  method ProcessPage(c: Confluence, api: Api, contents: seq<Content>, mediaTypes: seq<string>, limit: u32, ghost bound: nat)
    returns (lines: seq<string>, outcome: Outcome)
    requires PageRun(c, api, contents, mediaTypes, limit, bound).outcome != OutOfFuel
    ensures Run(lines, outcome) == PageRun(c, api, contents, mediaTypes, limit, bound)
  {
    ghost var total := PageRun(c, api, contents, mediaTypes, limit, bound);
    lines := [];
    for i := 0 to |contents|
      invariant lines + PageRun(c, api, contents[i..], mediaTypes, limit, bound).lines == total.lines
      invariant PageRun(c, api, contents[i..], mediaTypes, limit, bound).outcome == total.outcome
    {
      PageRunAt(c, api, contents, i, mediaTypes, limit, bound);
      var printed, result := ProcessContent(c, api, contents[i], mediaTypes, limit, bound);
      lines := lines + printed;
      if result != Finished {
        return lines, result;
      }
    }
    outcome := Finished;
  }

  /**
   * `process_all_contents`: walks the content listing page by page; for
   * each item, each media type in order, prints the lines of its
   * attachments; after each page prints a progress notice. The ghost
   * `fuel` bounds the content pages and `bound` every attachment walk.
   */
  method ProcessAllContents(c: Confluence, api: Api, mediaTypes: seq<string>, limit: u32, ghost bound: nat, ghost fuel: nat)
    returns (lines: seq<string>, outcome: Outcome)
    requires Crawl(c, api, mediaTypes, limit, bound, ContentsUrl(c, limit), fuel).outcome != OutOfFuel
    ensures Run(lines, outcome) == Crawl(c, api, mediaTypes, limit, bound, ContentsUrl(c, limit), fuel)
  {
    ghost var start := ContentsUrl(c, limit);
    var contentUrl := ContentsUrl(c, limit);
    lines := [];
    ghost var k := fuel;
    while true
      invariant Then(lines, Crawl(c, api, mediaTypes, limit, bound, contentUrl, k))
             == Crawl(c, api, mediaTypes, limit, bound, start, fuel)
      decreases k
    {
      var response: Result<ContentResponse, FetchError> := ApiCall(api.contents, contentUrl);
      if response.Err? {
        return lines, Aborted(response.error);
      }
      var printed, result := ProcessPage(c, api, response.value.results, mediaTypes, limit, bound);
      lines := lines + printed;
      if result != Finished {
        return lines, result;
      }
      if response.value.next.Some? {
        contentUrl := NextUrl(c, response.value.next.value);
        lines := lines + [NextPageNotice];
        k := k - 1;
      } else {
        lines := lines + [DoneNotice];
        break;
      }
    }
    outcome := Finished;
  }

  /** Concatenation of a sequence of sequences, in order. */
  ghost function Flatten<T>(ss: seq<seq<T>>): seq<T> {
    if ss == [] then [] else ss[0] + Flatten(ss[1..])
  }

  /** The lines for one content item and one media type: its attachments, in arrival order. */
  ghost function MediaTypeLines(c: Confluence, api: Api, content: Content, mediaType: string, limit: u32, bound: nat): seq<string> {
    AttachmentLines(c, content, AttachmentWalk(c, api, content.id, mediaType, limit, bound).items)
  }

  /** Reference order for one content item: media type by media type, in the given order. */
  ghost function ContentLines(c: Confluence, api: Api, content: Content, mediaTypes: seq<string>, limit: u32, bound: nat): seq<string> {
    Flatten(seq(|mediaTypes|, j requires 0 <= j < |mediaTypes| => MediaTypeLines(c, api, content, mediaTypes[j], limit, bound)))
  }

  /** Reference order for the items of a page: content item by content item. */
  ghost function ContentsLines(c: Confluence, api: Api, contents: seq<Content>, mediaTypes: seq<string>, limit: u32, bound: nat): seq<string> {
    Flatten(seq(|contents|, i requires 0 <= i < |contents| => ContentLines(c, api, contents[i], mediaTypes, limit, bound)))
  }

  /** The progress notice printed after a content page. */
  function Notice(page: ContentResponse): string {
    if page.next.Some? then NextPageNotice else DoneNotice
  }

  /** Reference output along content pages: each page's lines, then its notice. */
  ghost function CrawlLines(c: Confluence, api: Api, mediaTypes: seq<string>, limit: u32, bound: nat, urls: seq<string>): seq<string>
    requires AllFetch(api.contents, urls)
  {
    Flatten(seq(|urls|, k requires 0 <= k < |urls| && ApiCall(api.contents, urls[k]).Ok? =>
      ContentsLines(c, api, ApiCall(api.contents, urls[k]).value.results, mediaTypes, limit, bound)
        + [Notice(ApiCall(api.contents, urls[k]).value)]))
  }

  /** Every attachment walk of one content item, one per media type, finishes. */
  ghost predicate WalksFinish(c: Confluence, api: Api, content: Content, mediaTypes: seq<string>, limit: u32, bound: nat) {
    forall j :: 0 <= j < |mediaTypes| ==> AttachmentWalk(c, api, content.id, mediaTypes[j], limit, bound).outcome == Finished
  }

  /** Every attachment walk of every content item of `contents` finishes. */
  ghost predicate AllWalksFinish(c: Confluence, api: Api, contents: seq<Content>, mediaTypes: seq<string>, limit: u32, bound: nat) {
    forall i :: 0 <= i < |contents| ==> WalksFinish(c, api, contents[i], mediaTypes, limit, bound)
  }

  /** The attachment walks of every content page of `urls` finish. */
  ghost predicate PagesWalksFinish(c: Confluence, api: Api, mediaTypes: seq<string>, limit: u32, bound: nat, urls: seq<string>) {
    forall k :: 0 <= k < |urls| ==>
      ApiCall(api.contents, urls[k]).Ok? ==>
        AllWalksFinish(c, api, ApiCall(api.contents, urls[k]).value.results, mediaTypes, limit, bound)
  }

  lemma WalksFinishCons(c: Confluence, api: Api, content: Content, mediaTypes: seq<string>, limit: u32, bound: nat)
    requires |mediaTypes| > 0
    ensures WalksFinish(c, api, content, mediaTypes, limit, bound)
        <==> AttachmentWalk(c, api, content.id, mediaTypes[0], limit, bound).outcome == Finished
             && WalksFinish(c, api, content, mediaTypes[1..], limit, bound)
  {
    var tail := mediaTypes[1..];
    assert forall j :: 0 <= j < |tail| ==> tail[j] == mediaTypes[j + 1];
    if AttachmentWalk(c, api, content.id, mediaTypes[0], limit, bound).outcome == Finished
       && WalksFinish(c, api, content, tail, limit, bound) {
      forall j | 0 <= j < |mediaTypes|
        ensures AttachmentWalk(c, api, content.id, mediaTypes[j], limit, bound).outcome == Finished
      {
        if j > 0 { assert mediaTypes[j] == tail[j - 1]; }
      }
    }
  }

  lemma AllWalksFinishCons(c: Confluence, api: Api, contents: seq<Content>, mediaTypes: seq<string>, limit: u32, bound: nat)
    requires |contents| > 0
    ensures AllWalksFinish(c, api, contents, mediaTypes, limit, bound)
        <==> WalksFinish(c, api, contents[0], mediaTypes, limit, bound)
             && AllWalksFinish(c, api, contents[1..], mediaTypes, limit, bound)
  {
    var tail := contents[1..];
    assert forall i :: 0 <= i < |tail| ==> tail[i] == contents[i + 1];
    if WalksFinish(c, api, contents[0], mediaTypes, limit, bound) && AllWalksFinish(c, api, tail, mediaTypes, limit, bound) {
      forall i | 0 <= i < |contents|
        ensures WalksFinish(c, api, contents[i], mediaTypes, limit, bound)
      {
        if i > 0 { assert contents[i] == tail[i - 1]; }
      }
    }
  }

  lemma ContentLinesCons(c: Confluence, api: Api, content: Content, mediaTypes: seq<string>, limit: u32, bound: nat)
    requires |mediaTypes| > 0
    ensures ContentLines(c, api, content, mediaTypes, limit, bound)
         == MediaTypeLines(c, api, content, mediaTypes[0], limit, bound) + ContentLines(c, api, content, mediaTypes[1..], limit, bound)
  {
    var s := seq(|mediaTypes|, j requires 0 <= j < |mediaTypes| => MediaTypeLines(c, api, content, mediaTypes[j], limit, bound));
    var tail := mediaTypes[1..];
    assert s[1..] == seq(|tail|, j requires 0 <= j < |tail| => MediaTypeLines(c, api, content, tail[j], limit, bound));
  }

  lemma ContentsLinesCons(c: Confluence, api: Api, contents: seq<Content>, mediaTypes: seq<string>, limit: u32, bound: nat)
    requires |contents| > 0
    ensures ContentsLines(c, api, contents, mediaTypes, limit, bound)
         == ContentLines(c, api, contents[0], mediaTypes, limit, bound) + ContentsLines(c, api, contents[1..], mediaTypes, limit, bound)
  {
    var s := seq(|contents|, i requires 0 <= i < |contents| => ContentLines(c, api, contents[i], mediaTypes, limit, bound));
    var tail := contents[1..];
    assert s[1..] == seq(|tail|, i requires 0 <= i < |tail| => ContentLines(c, api, tail[i], mediaTypes, limit, bound));
  }

  lemma CrawlLinesCons(c: Confluence, api: Api, mediaTypes: seq<string>, limit: u32, bound: nat, urls: seq<string>)
    requires |urls| > 0 && AllFetch(api.contents, urls)
    ensures AllFetch(api.contents, urls[1..])
    ensures CrawlLines(c, api, mediaTypes, limit, bound, urls)
         == ContentsLines(c, api, ApiCall(api.contents, urls[0]).value.results, mediaTypes, limit, bound)
            + [Notice(ApiCall(api.contents, urls[0]).value)]
            + CrawlLines(c, api, mediaTypes, limit, bound, urls[1..])
  {
    var tail := urls[1..];
    assert forall k :: 0 <= k < |tail| ==> tail[k] == urls[k + 1];
    var s := seq(|urls|, k requires 0 <= k < |urls| && ApiCall(api.contents, urls[k]).Ok? =>
      ContentsLines(c, api, ApiCall(api.contents, urls[k]).value.results, mediaTypes, limit, bound)
        + [Notice(ApiCall(api.contents, urls[k]).value)]);
    assert s[1..] == seq(|tail|, k requires 0 <= k < |tail| && ApiCall(api.contents, tail[k]).Ok? =>
      ContentsLines(c, api, ApiCall(api.contents, tail[k]).value.results, mediaTypes, limit, bound)
        + [Notice(ApiCall(api.contents, tail[k]).value)]);
  }

  /**
   * The media-type loop for one content item finishes exactly when every
   * one of its attachment walks does, and then prints the attachments of
   * each media type in the given order, each in arrival order.
   */
  lemma {:induction false} ContentRunOrder(c: Confluence, api: Api, content: Content, mediaTypes: seq<string>, limit: u32, bound: nat)
    ensures ContentRun(c, api, content, mediaTypes, limit, bound).outcome == Finished
        <==> WalksFinish(c, api, content, mediaTypes, limit, bound)
    ensures WalksFinish(c, api, content, mediaTypes, limit, bound)
        ==> ContentRun(c, api, content, mediaTypes, limit, bound) == Run(ContentLines(c, api, content, mediaTypes, limit, bound), Finished)
    decreases |mediaTypes|
  {
    if mediaTypes != [] {
      var tail := mediaTypes[1..];
      ContentRunOrder(c, api, content, tail, limit, bound);
      ContentLinesCons(c, api, content, mediaTypes, limit, bound);
      WalksFinishCons(c, api, content, mediaTypes, limit, bound);
    }
  }

  /**
   * When the attachment walk for the `j`-th media type aborts, after those
   * before it finished, the content item's run stops there with that error,
   * having printed the lines of the earlier media types only.
   */
  lemma {:induction false} ContentRunAbortsAt(c: Confluence, api: Api, content: Content, mediaTypes: seq<string>, j: nat, limit: u32, bound: nat)
    requires j < |mediaTypes| && WalksFinish(c, api, content, mediaTypes[..j], limit, bound)
    requires AttachmentWalk(c, api, content.id, mediaTypes[j], limit, bound).outcome.Aborted?
    ensures ContentRun(c, api, content, mediaTypes, limit, bound)
         == Run(ContentLines(c, api, content, mediaTypes[..j], limit, bound),
                AttachmentWalk(c, api, content.id, mediaTypes[j], limit, bound).outcome)
    decreases j
  {
    if j > 0 {
      var tail := mediaTypes[1..];
      assert mediaTypes[..j][0] == mediaTypes[0];
      assert tail[..j - 1] == mediaTypes[..j][1..];
      assert tail[j - 1] == mediaTypes[j];
      WalksFinishCons(c, api, content, mediaTypes[..j], limit, bound);
      ContentRunAbortsAt(c, api, content, tail, j - 1, limit, bound);
      ContentLinesCons(c, api, content, mediaTypes[..j], limit, bound);
    }
  }

  /**
   * The content loop over a page finishes exactly when every attachment walk
   * of every item does, and then prints content item by content item.
   */
  lemma {:induction false} PageRunOrder(c: Confluence, api: Api, contents: seq<Content>, mediaTypes: seq<string>, limit: u32, bound: nat)
    ensures PageRun(c, api, contents, mediaTypes, limit, bound).outcome == Finished
        <==> AllWalksFinish(c, api, contents, mediaTypes, limit, bound)
    ensures AllWalksFinish(c, api, contents, mediaTypes, limit, bound)
        ==> PageRun(c, api, contents, mediaTypes, limit, bound) == Run(ContentsLines(c, api, contents, mediaTypes, limit, bound), Finished)
    decreases |contents|
  {
    if contents != [] {
      var tail := contents[1..];
      PageRunOrder(c, api, tail, mediaTypes, limit, bound);
      ContentRunOrder(c, api, contents[0], mediaTypes, limit, bound);
      ContentsLinesCons(c, api, contents, mediaTypes, limit, bound);
      AllWalksFinishCons(c, api, contents, mediaTypes, limit, bound);
    }
  }

  /**
   * Failure propagation within a page: when the walk of the `j`-th media
   * type of the `i`-th item aborts, after every earlier walk finished, the
   * page's run stops with that error; it has printed the lines of the
   * earlier items and of the earlier media types of item `i`, and no later
   * item is processed.
   */
  lemma {:induction false} PageRunAbortsAt(c: Confluence, api: Api, contents: seq<Content>, i: nat, mediaTypes: seq<string>, j: nat, limit: u32, bound: nat)
    requires i < |contents| && AllWalksFinish(c, api, contents[..i], mediaTypes, limit, bound)
    requires j < |mediaTypes| && WalksFinish(c, api, contents[i], mediaTypes[..j], limit, bound)
    requires AttachmentWalk(c, api, contents[i].id, mediaTypes[j], limit, bound).outcome.Aborted?
    ensures PageRun(c, api, contents, mediaTypes, limit, bound)
         == Run(ContentsLines(c, api, contents[..i], mediaTypes, limit, bound) + ContentLines(c, api, contents[i], mediaTypes[..j], limit, bound),
                AttachmentWalk(c, api, contents[i].id, mediaTypes[j], limit, bound).outcome)
    decreases i
  {
    if i == 0 {
      ContentRunAbortsAt(c, api, contents[0], mediaTypes, j, limit, bound);
      assert contents[..0] == [];
    } else {
      var tail := contents[1..];
      assert contents[..i][0] == contents[0];
      assert tail[..i - 1] == contents[..i][1..];
      assert tail[i - 1] == contents[i];
      AllWalksFinishCons(c, api, contents[..i], mediaTypes, limit, bound);
      PageRunAbortsAt(c, api, tail, i - 1, mediaTypes, j, limit, bound);
      ContentRunOrder(c, api, contents[0], mediaTypes, limit, bound);
      ContentsLinesCons(c, api, contents[..i], mediaTypes, limit, bound);
    }
  }

  lemma PagesWalksFinishTail(c: Confluence, api: Api, mediaTypes: seq<string>, limit: u32, bound: nat, urls: seq<string>)
    requires |urls| > 0 && PagesWalksFinish(c, api, mediaTypes, limit, bound, urls)
    ensures PagesWalksFinish(c, api, mediaTypes, limit, bound, urls[1..])
  {
    var tail := urls[1..];
    assert forall k :: 0 <= k < |tail| ==> tail[k] == urls[k + 1];
  }

  /**
   * Along a complete chain of content pages from the first URL, when every
   * attachment walk finishes, the run finishes and prints, page by page in
   * chain order, the lines of the page's items followed by the page's notice.
   */
  lemma {:induction false} CrawlFollowsChain(c: Confluence, api: Api, mediaTypes: seq<string>, limit: u32, bound: nat, urls: seq<string>, fuel: nat)
    requires Chain(c, api.contents, urls) && |urls| <= fuel
    requires PagesWalksFinish(c, api, mediaTypes, limit, bound, urls)
    ensures AllFetch(api.contents, urls)
    ensures Crawl(c, api, mediaTypes, limit, bound, urls[0], fuel) == Run(CrawlLines(c, api, mediaTypes, limit, bound, urls), Finished)
    decreases |urls|
  {
    WalkFollowsChain(c, api.contents, urls, fuel);
    var page := ApiCall(api.contents, urls[0]).value;
    PageRunOrder(c, api, page.results, mediaTypes, limit, bound);
    CrawlLinesCons(c, api, mediaTypes, limit, bound, urls);
    if |urls| > 1 {
      var tail := urls[1..];
      LinkedTail(c, api.contents, urls);
      assert tail[|tail| - 1] == urls[|urls| - 1];
      PagesWalksFinishTail(c, api, mediaTypes, limit, bound, urls);
      CrawlFollowsChain(c, api, mediaTypes, limit, bound, tail, fuel - 1);
    }
  }

  /**
   * Conversely, a run that finishes walked a complete chain of content
   * pages, every attachment walk on the way finished, and it printed the
   * reference output of that chain.
   */
  lemma {:induction false} FinishedCrawlFollowedChain(c: Confluence, api: Api, mediaTypes: seq<string>, limit: u32, bound: nat, url: string, fuel: nat)
    requires Crawl(c, api, mediaTypes, limit, bound, url, fuel).outcome == Finished
    ensures var w := WalkFrom(c, api.contents, url, fuel);
      && w.outcome == Finished && Chain(c, api.contents, w.requests) && w.requests[0] == url
      && AllFetch(api.contents, w.requests)
      && PagesWalksFinish(c, api, mediaTypes, limit, bound, w.requests)
      && Crawl(c, api, mediaTypes, limit, bound, url, fuel).lines == CrawlLines(c, api, mediaTypes, limit, bound, w.requests)
    decreases fuel
  {
    var page := ApiCall(api.contents, url).value;
    PageRunOrder(c, api, page.results, mediaTypes, limit, bound);
    if page.next.Some? {
      var next := NextUrl(c, page.next.value);
      FinishedCrawlFollowedChain(c, api, mediaTypes, limit, bound, next, fuel - 1);
      var rest := WalkFrom(c, api.contents, next, fuel - 1);
      FinishedWalkFollowedChain(c, api.contents, url, fuel);
      var w := WalkFrom(c, api.contents, url, fuel);
      assert w.requests == [url] + rest.requests;
      assert w.requests[1..] == rest.requests;
      CrawlLinesCons(c, api, mediaTypes, limit, bound, w.requests);
      forall k | 0 <= k < |w.requests| && ApiCall(api.contents, w.requests[k]).Ok?
        ensures AllWalksFinish(c, api, ApiCall(api.contents, w.requests[k]).value.results, mediaTypes, limit, bound)
      {
        if k > 0 { assert w.requests[k] == rest.requests[k - 1]; }
      }
    } else {
      FinishedWalkFollowedChain(c, api.contents, url, fuel);
      CrawlLinesCons(c, api, mediaTypes, limit, bound, [url]);
    }
  }

  /**
   * Failure propagation across pages: when the run reaches the last URL of
   * a linked chain of content pages, every earlier page having finished, and
   * processing that page aborts (its fetch fails or one of its attachment
   * walks does), the run ends there with everything the earlier pages
   * printed, then what that page printed before failing, and nothing more.
   */
  lemma {:induction false} CrawlAbortsAt(c: Confluence, api: Api, mediaTypes: seq<string>, limit: u32, bound: nat, urls: seq<string>, fuel: nat)
    requires 0 < |urls| <= fuel && Linked(c, api.contents, urls)
    requires PagesWalksFinish(c, api, mediaTypes, limit, bound, urls[..|urls| - 1])
    requires Crawl(c, api, mediaTypes, limit, bound, urls[|urls| - 1], 1).outcome.Aborted?
    ensures AllFetch(api.contents, urls[..|urls| - 1])
    ensures Crawl(c, api, mediaTypes, limit, bound, urls[0], fuel)
         == Then(CrawlLines(c, api, mediaTypes, limit, bound, urls[..|urls| - 1]), Crawl(c, api, mediaTypes, limit, bound, urls[|urls| - 1], 1))
    decreases |urls|
  {
    var prefix := urls[..|urls| - 1];
    if |urls| == 1 {
      assert prefix == [];
    } else {
      var tail := urls[1..];
      LinkedTail(c, api.contents, urls);
      assert tail[|tail| - 1] == urls[|urls| - 1];
      assert prefix[0] == urls[0];
      assert prefix[1..] == tail[..|tail| - 1];
      assert forall k :: 0 <= k < |prefix| ==> prefix[k] == urls[k];
      PagesWalksFinishTail(c, api, mediaTypes, limit, bound, prefix);
      CrawlAbortsAt(c, api, mediaTypes, limit, bound, tail, fuel - 1);
      var page := ApiCall(api.contents, urls[0]).value;
      PageRunOrder(c, api, page.results, mediaTypes, limit, bound);
      CrawlLinesCons(c, api, mediaTypes, limit, bound, prefix);
    }
  }

  /** The walk bound only limits a content item's run: once it ends within it, a larger one changes nothing. */
  lemma {:induction false} ContentRunBoundSuffices(c: Confluence, api: Api, content: Content, mediaTypes: seq<string>, limit: u32, b: nat, b2: nat)
    requires b <= b2 && ContentRun(c, api, content, mediaTypes, limit, b).outcome != OutOfFuel
    ensures ContentRun(c, api, content, mediaTypes, limit, b2) == ContentRun(c, api, content, mediaTypes, limit, b)
    decreases |mediaTypes|
  {
    if mediaTypes != [] {
      WalkFuelSuffices(c, api.attachments, AttachmentsUrl(c, content.id, limit, mediaTypes[0]), b, b2);
      if AttachmentWalk(c, api, content.id, mediaTypes[0], limit, b).outcome == Finished {
        ContentRunBoundSuffices(c, api, content, mediaTypes[1..], limit, b, b2);
      }
    }
  }

  /** The same for the items of one content page. */
  lemma {:induction false} PageRunBoundSuffices(c: Confluence, api: Api, contents: seq<Content>, mediaTypes: seq<string>, limit: u32, b: nat, b2: nat)
    requires b <= b2 && PageRun(c, api, contents, mediaTypes, limit, b).outcome != OutOfFuel
    ensures PageRun(c, api, contents, mediaTypes, limit, b2) == PageRun(c, api, contents, mediaTypes, limit, b)
    decreases |contents|
  {
    if contents != [] {
      ContentRunBoundSuffices(c, api, contents[0], mediaTypes, limit, b, b2);
      if ContentRun(c, api, contents[0], mediaTypes, limit, b).outcome == Finished {
        PageRunBoundSuffices(c, api, contents[1..], mediaTypes, limit, b, b2);
      }
    }
  }

  /**
   * Both bounds only limit the whole run: once it ends within a walk bound
   * and a number of content pages, larger ones change nothing.
   */
  lemma {:induction false} CrawlFuelSuffices(c: Confluence, api: Api, mediaTypes: seq<string>, limit: u32, b: nat, b2: nat, url: string, f: nat, g: nat)
    requires b <= b2 && f <= g && Crawl(c, api, mediaTypes, limit, b, url, f).outcome != OutOfFuel
    ensures Crawl(c, api, mediaTypes, limit, b2, url, g) == Crawl(c, api, mediaTypes, limit, b, url, f)
    decreases f
  {
    match ApiCall(api.contents, url)
    case Err(_) =>
    case Ok(page) =>
      PageRunBoundSuffices(c, api, page.results, mediaTypes, limit, b, b2);
      if PageRun(c, api, page.results, mediaTypes, limit, b).outcome == Finished && page.next.Some? {
        CrawlFuelSuffices(c, api, mediaTypes, limit, b, b2, NextUrl(c, page.next.value), f - 1, g - 1);
      }
  }

  /**
   * Conversely to `ContentRunAbortsAt`: a content item's run that aborts
   * does so at some media type whose walk aborted with that error, every
   * earlier media type's walk having finished.
   */
  lemma {:induction false} AbortedContentRunFailedWalk(c: Confluence, api: Api, content: Content, mediaTypes: seq<string>, limit: u32, bound: nat)
    requires ContentRun(c, api, content, mediaTypes, limit, bound).outcome.Aborted?
    ensures exists j ::
      && 0 <= j < |mediaTypes| && WalksFinish(c, api, content, mediaTypes[..j], limit, bound)
      && AttachmentWalk(c, api, content.id, mediaTypes[j], limit, bound).outcome == ContentRun(c, api, content, mediaTypes, limit, bound).outcome
    decreases |mediaTypes|
  {
    if AttachmentWalk(c, api, content.id, mediaTypes[0], limit, bound).outcome != Finished {
      assert WalksFinish(c, api, content, mediaTypes[..0], limit, bound);
    } else {
      var tail := mediaTypes[1..];
      AbortedContentRunFailedWalk(c, api, content, tail, limit, bound);
      var j :| 0 <= j < |tail| && WalksFinish(c, api, content, tail[..j], limit, bound)
        && AttachmentWalk(c, api, content.id, tail[j], limit, bound).outcome == ContentRun(c, api, content, tail, limit, bound).outcome;
      assert tail[j] == mediaTypes[j + 1];
      assert mediaTypes[..j + 1][0] == mediaTypes[0];
      assert mediaTypes[..j + 1][1..] == tail[..j];
      WalksFinishCons(c, api, content, mediaTypes[..j + 1], limit, bound);
    }
  }

  /**
   * Conversely to `PageRunAbortsAt`: a page's run that aborts does so at
   * some content item whose run aborted with that error, every earlier
   * item's walks having finished.
   */
  lemma {:induction false} AbortedPageRunFailedItem(c: Confluence, api: Api, contents: seq<Content>, mediaTypes: seq<string>, limit: u32, bound: nat)
    requires PageRun(c, api, contents, mediaTypes, limit, bound).outcome.Aborted?
    ensures exists i ::
      && 0 <= i < |contents| && AllWalksFinish(c, api, contents[..i], mediaTypes, limit, bound)
      && ContentRun(c, api, contents[i], mediaTypes, limit, bound).outcome == PageRun(c, api, contents, mediaTypes, limit, bound).outcome
    decreases |contents|
  {
    if ContentRun(c, api, contents[0], mediaTypes, limit, bound).outcome != Finished {
      assert AllWalksFinish(c, api, contents[..0], mediaTypes, limit, bound);
    } else {
      var tail := contents[1..];
      ContentRunOrder(c, api, contents[0], mediaTypes, limit, bound);
      AbortedPageRunFailedItem(c, api, tail, mediaTypes, limit, bound);
      var i :| 0 <= i < |tail| && AllWalksFinish(c, api, tail[..i], mediaTypes, limit, bound)
        && ContentRun(c, api, tail[i], mediaTypes, limit, bound).outcome == PageRun(c, api, tail, mediaTypes, limit, bound).outcome;
      assert tail[i] == contents[i + 1];
      assert contents[..i + 1][0] == contents[0];
      assert contents[..i + 1][1..] == tail[..i];
      AllWalksFinishCons(c, api, contents[..i + 1], mediaTypes, limit, bound);
    }
  }

  /**
   * `urls` is the way to an abort: linked content pages, starting within
   * `fuel` pages, whose attachment walks all finish, up to a last page whose
   * processing ends with `outcome`.
   */
  ghost predicate AbortPath(c: Confluence, api: Api, mediaTypes: seq<string>, limit: u32, bound: nat, urls: seq<string>, fuel: nat, outcome: Outcome) {
    && 0 < |urls| <= fuel
    && Linked(c, api.contents, urls)
    && PagesWalksFinish(c, api, mediaTypes, limit, bound, urls[..|urls| - 1])
    && Crawl(c, api, mediaTypes, limit, bound, urls[|urls| - 1], 1).outcome == outcome
  }

  lemma AbortPathCons(c: Confluence, api: Api, mediaTypes: seq<string>, limit: u32, bound: nat, url: string, n: string, rest: seq<string>, fuel: nat, outcome: Outcome)
    requires ApiCall(api.contents, url).Ok? && ApiCall(api.contents, url).value.next == Some(n)
    requires AllWalksFinish(c, api, ApiCall(api.contents, url).value.results, mediaTypes, limit, bound)
    requires fuel > 0 && |rest| > 0 && rest[0] == NextUrl(c, n)
    requires AbortPath(c, api, mediaTypes, limit, bound, rest, fuel - 1, outcome)
    ensures AbortPath(c, api, mediaTypes, limit, bound, [url] + rest, fuel, outcome)
  {
    var urls := [url] + rest;
    LinkedCons(c, api.contents, url, n, rest);
    var prefix := urls[..|urls| - 1];
    forall k | 0 <= k < |prefix| && ApiCall(api.contents, prefix[k]).Ok?
      ensures AllWalksFinish(c, api, ApiCall(api.contents, prefix[k]).value.results, mediaTypes, limit, bound)
    {
      if k > 0 {
        assert prefix[k] == rest[..|rest| - 1][k - 1];
      }
    }
    assert urls[|urls| - 1] == rest[|rest| - 1];
  }

  /**
   * Conversely to `CrawlAbortsAt`: a run that aborts followed cursors from
   * its first URL along content pages whose attachment walks all finished,
   * up to a page whose processing (its fetch or one of its walks) aborted
   * with the reported error.
   */
  lemma {:induction false} AbortedCrawlFailedPage(c: Confluence, api: Api, mediaTypes: seq<string>, limit: u32, bound: nat, url: string, fuel: nat)
    requires Crawl(c, api, mediaTypes, limit, bound, url, fuel).outcome.Aborted?
    ensures exists urls: seq<string> ::
      && |urls| > 0 && urls[0] == url
      && AbortPath(c, api, mediaTypes, limit, bound, urls, fuel, Crawl(c, api, mediaTypes, limit, bound, url, fuel).outcome)
    decreases fuel
  {
    var outcome := Crawl(c, api, mediaTypes, limit, bound, url, fuel).outcome;
    var page := ApiCall(api.contents, url);
    if page.Err? || PageRun(c, api, page.value.results, mediaTypes, limit, bound).outcome != Finished {
      assert [url][..0] == [];
      assert AbortPath(c, api, mediaTypes, limit, bound, [url], fuel, outcome);
    } else {
      PageRunOrder(c, api, page.value.results, mediaTypes, limit, bound);
      var n := page.value.next.value;
      AbortedCrawlFailedPage(c, api, mediaTypes, limit, bound, NextUrl(c, n), fuel - 1);
      var rest :| |rest| > 0 && rest[0] == NextUrl(c, n) && AbortPath(c, api, mediaTypes, limit, bound, rest, fuel - 1, outcome);
      AbortPathCons(c, api, mediaTypes, limit, bound, url, n, rest, fuel, outcome);
      assert ([url] + rest)[0] == url;
    }
  }
}
