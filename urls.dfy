/**
 * The crawler's configuration and every URL and output line it builds.
 * All of them are plain string concatenations: nothing is escaped or
 * normalised.
 */
module Urls {
  import opened Decimal
  import opened Records

  /** `Confluence::new` stores its two arguments unchanged; no method changes them. */
  datatype Confluence = Confluence(baseUrl: string, restApiUrl: string)

  /** `api_url`: the base URL and the REST API path joined by one `/`. */
  function ApiUrl(c: Confluence): (r: string)
    ensures |r| == |c.baseUrl| + 1 + |c.restApiUrl|
    ensures r[..|c.baseUrl|] == c.baseUrl
    ensures r[|c.baseUrl|] == '/'
    ensures r[|c.baseUrl| + 1..] == c.restApiUrl
  {
    c.baseUrl + "/" + c.restApiUrl
  }

  /** First URL of the attachment walk of one content item and one media type. */
  function AttachmentsUrl(c: Confluence, contentId: string, limit: u32, mediaType: string): (r: string)
    ensures |ApiUrl(c)| < |r| && r[..|ApiUrl(c)|] == ApiUrl(c)
    ensures |mediaType| <= |r| && r[|r| - |mediaType|..] == mediaType
  {
    ApiUrl(c) + "/content/" + contentId + "/child/attachment?limit=" + DecimalString(limit as nat)
      + "&mediaType=" + mediaType
  }

  /** First URL of the content walk: current pages with their space expanded, from offset 0. */
  function ContentsUrl(c: Confluence, limit: u32): (r: string)
    ensures |ApiUrl(c)| < |r| && r[..|ApiUrl(c)|] == ApiUrl(c)
    ensures |r| >= 23 && r[|r| - 23..] == "&status=current&start=0"
  {
    ApiUrl(c) + "/content?type=page&expand=space&limit=" + DecimalString(limit as nat)
      + "&status=current&start=0"
  }

  /**
   * The URL of the page after one whose `_links.next` is `next`: the base URL
   * (not the API URL) followed by the cursor exactly as the server sent it.
   */
  function NextUrl(c: Confluence, next: string): (r: string)
    ensures |r| == |c.baseUrl| + |next|
    ensures r[..|c.baseUrl|] == c.baseUrl && r[|c.baseUrl|..] == next
  {
    c.baseUrl + next
  }

  /** The absolute download URL of an attachment: base URL and relative link. */
  function DownloadUrl(c: Confluence, a: Attachment): (r: string)
    ensures |r| == |c.baseUrl| + |a.download|
    ensures r[..|c.baseUrl|] == c.baseUrl && r[|c.baseUrl|..] == a.download
  {
    c.baseUrl + a.download
  }

  /** The raw-bytes URL of an attachment, built from the API URL and both ids. */
  function DataUrl(c: Confluence, content: Content, a: Attachment): (r: string)
    ensures |ApiUrl(c)| < |r| && r[..|ApiUrl(c)|] == ApiUrl(c)
    ensures |r| >= 5 && r[|r| - 5..] == "/data"
  {
    ApiUrl(c) + "/content/" + content.id + "/child/attachment/" + a.id + "/data"
  }

  /** The quoted `space/content/attachment` path that opens an output line. */
  function QuotedPath(content: Content, a: Attachment): string {
    "\"" + content.space.key + "/" + content.title + "/" + a.title + "\""
  }

  /** The one line printed per attachment: quoted path, download URL, raw-bytes URL. */
  function AttachmentLine(c: Confluence, content: Content, a: Attachment): (r: string)
    ensures var q := QuotedPath(content, a);
      |q| < |r| && r[..|q|] == q && r[|q|] == ' '
    ensures var d := DataUrl(c, content, a);
      |d| < |r| && r[|r| - |d|..] == d && r[|r| - |d| - 1] == ' '
  {
    QuotedPath(content, a) + " " + DownloadUrl(c, a) + " " + DataUrl(c, content, a)
  }

  /** Stitching a cursor never uses the REST API path. */
  lemma NextUrlIgnoresApiPath(base: string, api1: string, api2: string, next: string)
    ensures NextUrl(Confluence(base, api1), next) == NextUrl(Confluence(base, api2), next)
  {
  }

  /** A download link is stitched onto the base URL exactly as a `next` cursor is. */
  lemma DownloadUrlIsStitched(c: Confluence, a: Attachment)
    ensures DownloadUrl(c, a) == NextUrl(c, a.download)
  {
  }

  /** Equal strings with equal prefixes have equal remainders. */
  lemma CancelPrefix(p: string, x: string, y: string)
    requires p + x == p + y
    ensures x == y
  {
    assert x == (p + x)[|p|..];
    assert y == (p + y)[|p|..];
  }

  /**
   * Two strings that each start with a part free of `sep` followed by `sep`
   * split at the same place.
   */
  lemma SplitAtSeparator(a1: string, s1: string, a2: string, s2: string, sep: char)
    requires sep !in a1 && sep !in a2
    requires |s1| > 0 && s1[0] == sep && |s2| > 0 && s2[0] == sep
    requires a1 + s1 == a2 + s2
    ensures a1 == a2 && s1 == s2
  {
    assert a1 == (a1 + s1)[..|a1|];
    assert a2 == (a2 + s2)[..|a2|];
    CancelPrefix(a1, s1, s2);
  }

  lemma DigitsHaveNoAmpersand(n: nat)
    ensures '&' !in DecimalString(n)
  {
  }

  /** The attachment URL, re-associated into its fixed prefix and the parts that vary. */
  lemma AttachmentsUrlShape(c: Confluence, id: string, l: u32, m: string)
    ensures AttachmentsUrl(c, id, l, m)
         == (ApiUrl(c) + "/content/") + (id + ("/child/attachment?limit=" + (DecimalString(l as nat) + ("&mediaType=" + m))))
  {
  }

  /**
   * Each (content item, page size, media type) combination has its own
   * attachment URL, provided the content id contains no `/`.
   */
  lemma AttachmentsUrlInjective(c: Confluence, id1: string, l1: u32, m1: string, id2: string, l2: u32, m2: string)
    requires '/' !in id1 && '/' !in id2
    requires AttachmentsUrl(c, id1, l1, m1) == AttachmentsUrl(c, id2, l2, m2)
    ensures id1 == id2 && l1 == l2 && m1 == m2
  {
    var p := ApiUrl(c) + "/content/";
    var q := "/child/attachment?limit=";
    var k := "&mediaType=";
    var d1, d2 := DecimalString(l1 as nat), DecimalString(l2 as nat);
    var u1, u2 := k + m1, k + m2;
    var t1, t2 := q + (d1 + u1), q + (d2 + u2);
    AttachmentsUrlShape(c, id1, l1, m1);
    AttachmentsUrlShape(c, id2, l2, m2);
    CancelPrefix(p, id1 + t1, id2 + t2);
    SplitAtSeparator(id1, t1, id2, t2, '/');
    CancelPrefix(q, d1 + u1, d2 + u2);
    DigitsHaveNoAmpersand(l1 as nat);
    DigitsHaveNoAmpersand(l2 as nat);
    SplitAtSeparator(d1, u1, d2, u2, '&');
    DecimalStringInjective(l1 as nat, l2 as nat);
    CancelPrefix(k, m1, m2);
  }

  /** The content listing URL, re-associated into its fixed prefix, the page size and its fixed suffix. */
  lemma ContentsUrlShape(c: Confluence, l: u32)
    ensures ContentsUrl(c, l)
         == (ApiUrl(c) + "/content?type=page&expand=space&limit=") + (DecimalString(l as nat) + "&status=current&start=0")
  {
  }

  /** Different page sizes give different content listing URLs. */
  lemma ContentsUrlInjective(c: Confluence, l1: u32, l2: u32)
    requires ContentsUrl(c, l1) == ContentsUrl(c, l2)
    ensures l1 == l2
  {
    var p := ApiUrl(c) + "/content?type=page&expand=space&limit=";
    var d1, d2 := DecimalString(l1 as nat), DecimalString(l2 as nat);
    var u := "&status=current&start=0";
    ContentsUrlShape(c, l1);
    ContentsUrlShape(c, l2);
    CancelPrefix(p, d1 + u, d2 + u);
    DigitsHaveNoAmpersand(l1 as nat);
    DigitsHaveNoAmpersand(l2 as nat);
    SplitAtSeparator(d1, u, d2, u, '&');
    DecimalStringInjective(l1 as nat, l2 as nat);
  }
}
