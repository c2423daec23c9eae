# Confluence attachment crawler, modelled in Dafny

The program lists every current page of a Confluence wiki through its REST API.
For each page and each requested media type it lists the page's attachments
and prints one line per attachment: the quoted `space/page/attachment` path,
the absolute download URL and the URL of the attachment's raw bytes. Both
listings are paginated. The crawler follows the server's relative
`_links.next` cursor. It appends each cursor to the base URL and stops at the
first page that has no cursor.

This model covers that core: URL construction, the attachment walk
(`fetch_attachments`) and the nested content traversal
(`process_all_contents`), with its output. The network is an abstract server:
a function from a URL to a reply, which is either no reply or a status code
with the body, possibly decoded.

Modules:

- `Wrappers`: `Option` and `Result`.
- `Records`: the decoded records `Space`, `Content`, `Attachment`, and
  `Page<T>` for `ContentResponse` and `AttachmentResponse`.
- `Decimal`: `u32` and its decimal rendering, which both start URLs use for
  the page size, with a parse-back round trip.
- `Transport`: `api_call` over the abstract server. A failed send, a non-200
  status and an undecodable body each become an error value where the source
  panics.
- `Urls`: the `Confluence` configuration, `api_url`, the two starting URLs,
  cursor stitching and the pieces of an output line.
- `Walker`: the generic cursor walk as a specification function. It records
  the URLs requested, the items collected and the outcome. Alongside it are
  the lemmas that relate the walk to a chain of pages.
- `Crawler`: `fetch_attachments` and `process_all_contents` as methods with
  loops, each proved against a specification function. Alongside them are
  lemmas about the order of the output and about failures.
- `Examples`: the configuration `main` uses, and small concrete runs.

Modelling choices:

- The `Confluence` struct is never mutated (`&self` everywhere), so it is a
  datatype. `Confluence::new` is its constructor.
- `fetch_contents` (src/main.rs:22-24) only forwards to `api_call`. The model
  calls `ApiCall` on the content server directly.
- The source's loops are unbounded, so a cyclic cursor chain would never end.
  The specification functions take fuel, a bound on pages, and running out
  of it is an outcome of its own (`OutOfFuel`). The methods take that bound
  as a ghost parameter. They require that the walk ends within it, which is
  the same as requiring the page chain to be finite. `WalkFuelSuffices`
  shows the bound only limits an attachment walk and does not change its
  result. `CrawlFuelSuffices` shows the same for the whole run, for both the
  walk bound and the number of content pages.
- Each `println!` is one element of a returned `seq<string>`. A panic is the
  outcome `Aborted(error)`. Lines printed before it stay in the returned
  output.
- The three nested `for` loops of `process_all_contents` are one method per
  loop level: `PrintAttachments`, `ProcessContent`, `ProcessPage`. The
  outer `loop` is in `ProcessAllContents`.
- A non-200 reply panics with the status and the response body
  (src/main.rs:182-184). A failed send (src/main.rs:175) or a failed decode
  (src/main.rs:179) panics through `unwrap()` with the HTTP client's error.
  No panic text is modelled: each case is one `FetchError` value, carrying
  the status for the non-200 case. `FetchError` carries no URL. The failing
  URL is the last request of the walk (`AbortedWalkFailedLast`).
- Cursors, download links, content ids and media types go into URLs exactly
  as received, without escaping or normalisation. A base URL ending in `/`
  followed by a cursor starting with `/` gives a double slash, as in the
  source.

## Model

| member | source | states |
|---|---|---|
| `Decimal.DecimalString` | src/main.rs:33-39 | the page size is rendered as a non-empty string of decimal digits whose first digit is `0` only for zero |
| `Decimal.ParseDecimalString` | src/main.rs:33-39 | reading the rendered page size back as a decimal number gives the page size |
| `Decimal.DecimalStringInjective` | src/main.rs:65-69 | different page sizes are rendered differently |
| `Transport.ApiCall` | src/main.rs:166-187 | a fetch succeeds exactly when the server replies 200 with a decodable body, returning that body; no reply, any other status (with that status) and an undecodable body are the three distinct errors |
| `Urls.ApiUrl` | src/main.rs:17-19 | the API URL is the base URL, then exactly one `/`, then the REST API path |
| `Urls.AttachmentsUrl` | src/main.rs:33-39 | the attachment walk starts at a URL that begins with the API URL and ends with the media type |
| `Urls.ContentsUrl` | src/main.rs:65-69 | the content walk starts at a URL that begins with the API URL and ends with `&status=current&start=0` |
| `Urls.NextUrl` | src/main.rs:47-49 | the URL after a page is the base URL followed by the `next` cursor exactly as sent |
| `Urls.NextUrlIgnoresApiPath` | src/main.rs:102-104 | stitching a cursor does not depend on the REST API path |
| `Urls.DownloadUrl` | src/main.rs:85-90 | the download URL is the base URL followed by the attachment's relative download link |
| `Urls.DownloadUrlIsStitched` | src/main.rs:85-90 | a download link is stitched onto the base URL the same way a cursor is |
| `Urls.DataUrl` | src/main.rs:86-94 | the raw-bytes URL begins with the API URL and ends with `/data` |
| `Urls.AttachmentLine` | src/main.rs:85-95 | an output line opens with the quoted `space/content/attachment` path and a space, and closes with a space and the raw-bytes URL |
| `Urls.AttachmentsUrlInjective` | src/main.rs:33-39 | for content ids without `/`, distinct (content id, page size, media type) combinations request distinct attachment URLs |
| `Urls.ContentsUrlInjective` | src/main.rs:65-69 | the content listing URL determines the page size |
| `Walker.WalkFrom` | src/main.rs:42-54 | a walk with a bound of n pages requests at most n URLs, starts at its start URL when n > 0, and runs out of fuel only after exactly n requests |
| `Walker.WalkResult` | src/main.rs:56 | a walk that did not run out of fuel yields its collected items exactly when it finished, and otherwise the error that aborted it |
| `Walker.WalkFollowsChain` | src/main.rs:40-56 | along a finite chain p1..pk, where each page's cursor leads to the next and only pk lacks one, the walk requests exactly those URLs in order and collects p1.results ++ ... ++ pk.results; empty pages with a cursor do not end it |
| `Walker.FinishedWalkFollowedChain` | src/main.rs:42-54 | a walk that finishes requested a complete chain from its start URL and collected exactly the concatenated results of those pages |
| `Walker.WalkAbortsAt` | src/main.rs:43-44 | when the last URL of a linked chain fails to fetch, the walk requests exactly that chain and stops with that URL's error |
| `Walker.AbortedWalkFailedLast` | src/main.rs:43-44 | a walk that aborts followed cursors from its start URL, and its last request is the one whose fetch failed with the reported error |
| `Walker.WalkFuelSuffices` | src/main.rs:42-54 | once a walk ends within a bound, any larger bound gives the same walk |
| `Walker.EmptyPageContinues` | src/main.rs:45-53 | a page with no results but a cursor does not end the walk: the walk continues at the stitched cursor URL |
| `Walker.LastPageEndsWalk` | src/main.rs:50-53 | a page without a cursor ends the walk with its results, and no further URL is requested |
| `Crawler.FetchAttachments` | src/main.rs:27-57 | the loop returns all attachments of the walk from the attachment start URL, or the error of the first failing fetch |
| `Crawler.PrintAttachments` | src/main.rs:84-96 | one line per attachment, in the order of the attachments |
| `Crawler.ProcessContent` | src/main.rs:77-97 | the media-type loop prints what `ContentRun` specifies and ends as it does |
| `Crawler.ProcessPage` | src/main.rs:74-100 | the content loop over one page prints what `PageRun` specifies and ends as it does |
| `Crawler.ProcessAllContents` | src/main.rs:60-112 | the page loop from the content start URL prints what `Crawl` specifies and ends as it does |
| `Crawler.ContentRunOrder` | src/main.rs:77-97 | one content item's output finishes exactly when all its attachment walks finish, and it is then the attachments of each media type, media types in the given order |
| `Crawler.ContentRunAbortsAt` | src/main.rs:80-82 | when the walk for a media type aborts after the earlier ones finished, the item's output is the earlier media types' lines and the run stops with that error |
| `Crawler.PageRunOrder` | src/main.rs:74-100 | a page's output finishes exactly when every attachment walk of every item finishes, and it is then content item by content item, each in media-type order |
| `Crawler.PageRunAbortsAt` | src/main.rs:74-100 | when the walk of media type j of item i aborts, the page prints the lines of items before i and of the media types before j of item i, then stops with that error and processes no later item |
| `Crawler.CrawlFollowsChain` | src/main.rs:71-111 | along a finite chain of content pages whose attachment walks all finish, the run finishes; it prints each page's lines in chain order, then "Fetching next page of contents...\n" after a page with a cursor, or "All contents processed." after the last page |
| `Crawler.FinishedCrawlFollowedChain` | src/main.rs:71-111 | a run that finishes walked a complete chain of content pages, every attachment walk on the way finished, and the run printed that chain's reference output |
| `Crawler.CrawlAbortsAt` | src/main.rs:72-111 | when processing a content page aborts after the earlier pages finished, the run prints the earlier pages' output, then what that page printed before failing, and nothing more |
| `Crawler.ContentRunBoundSuffices` | src/main.rs:77-97 | once a content item's run ends within a walk bound, any larger bound gives the same run |
| `Crawler.PageRunBoundSuffices` | src/main.rs:74-100 | once a page's run ends within a walk bound, any larger bound gives the same run |
| `Crawler.CrawlFuelSuffices` | src/main.rs:71-111 | once the whole run ends within a walk bound and a number of content pages, any larger bounds give the same lines and outcome |
| `Crawler.AbortedContentRunFailedWalk` | src/main.rs:77-82 | a content item's run that aborts does so at some media type whose attachment walk aborted with that error, all earlier media types' walks having finished |
| `Crawler.AbortedPageRunFailedItem` | src/main.rs:74-82 | a page's run that aborts does so at some content item whose run aborted with that error, all earlier items' walks having finished |
| `Crawler.AbortPathCons` | src/main.rs:102-104 | a content page whose walks finish and whose cursor leads to the start of a path to an abort extends that path by one page |
| `Crawler.AbortedCrawlFailedPage` | src/main.rs:71-111 | a run that aborts followed cursors from its first URL, along content pages whose walks all finished, to a page whose fetch or attachment walk aborted with the reported error |
| `Examples.OnapApiUrl` | src/main.rs:17-19 | `main`'s configuration has the API URL `https://wiki.onap.org/rest/api` |
| `Examples.OnapFirstRequest` | src/main.rs:192-198 | `main`'s run starts at `https://wiki.onap.org/rest/api/content?type=page&expand=space&limit=50&status=current&start=0` |
| `Examples.OnapAttachmentRequest` | src/main.rs:33-39 | `main`'s attachment walk for content 123 starts at `https://wiki.onap.org/rest/api/content/123/child/attachment?limit=50&mediaType=video/mp4` |
| `Examples.StitchExample` | src/main.rs:104 | base `https://example.org` and cursor `/rest/api/content?start=50` give `https://example.org/rest/api/content?start=50` |
| `Examples.DemoDataUrl` | src/main.rs:86-94 | the raw-bytes URL of attachment 456 of content 123 is `https://wiki.example.org/rest/api/content/123/child/attachment/456/data` |
| `Examples.DemoLine` | src/main.rs:85-95 | the exact line printed for attachment 456 (`demo.mp4`, `/download/456`) of content 123 (`Home`, space `ONAP`) |
| `Examples.OnePageRun` | src/main.rs:60-112 | one content page with that item and one attachment page with that attachment print exactly that line and then "All contents processed." |

## Left out

- The HTTP client: building it, setting the two JSON headers and sending
  the request (src/main.rs:167-175). This is network I/O, replaced here by the
  abstract server.
- The tokio runtime, `async`/`await` and the `#[tokio::main]` entry point
  (src/main.rs:189-199). The crawl is strictly sequential, so this is runtime
  plumbing. `main`'s constants are in `Examples`.
- serde JSON decoding (src/main.rs:115-162, 179). The records are modelled
  already decoded, and a decode failure is the single error `DecodeError`.
- The panic message text and the `"Unknown error"` fallback for an unreadable
  body (src/main.rs:183-184). These are diagnostic text only.
- The fields `WebuiLink.webui`, `Space.id` and `Link.base` (src/main.rs:116-118,
  122, 149). They are decoded but never used.
- The three commented-out progress `println!`s (src/main.rs:75, 78, 99). They are
  not part of the program's behaviour.
- The server is a fixed function from URL to reply. It cannot change during
  a run, so the model does not capture a wiki edited mid-crawl. A content
  id listed on two pages gets the same attachment pages both times. A
  cursor that leads back to an earlier URL repeats the same pages forever,
  so the specification functions end in `OutOfFuel` at every bound and
  the methods' precondition cannot be met for that server.
- Urls.AttachmentsUrl: its contract states only the start and the end of the
  URL. Nothing short of its body pins down the whole text. That text is
  stated for `main`'s values by `Examples.OnapAttachmentRequest`, and its
  parts are recovered by `Urls.AttachmentsUrlInjective`.
- Urls.ContentsUrl: its contract states only the start and the end of the
  URL. The whole text is stated by `Examples.OnapFirstRequest`, and the page
  size is recovered by `Urls.ContentsUrlInjective`.
- Urls.AttachmentLine and Urls.DataUrl: their contracts state how the line
  and URL open and close. The exact text is stated for one attachment by
  `Examples.DemoLine`.
