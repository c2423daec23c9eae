/**
 * Concrete instances: the configuration `main` runs with, and small page
 * chains whose output can be read off.
 */
module Examples {
  import opened Wrappers
  import opened Records
  import opened Decimal
  import opened Transport
  import opened Urls
  import opened Walker
  import opened Crawler

  /** The instance `main` builds. */
  const Onap: Confluence := Confluence("https://wiki.onap.org", "rest/api")

  /** The media types `main` asks for. */
  const OnapMediaTypes: seq<string> := ["video/mp4"]

  /** The page size `main` passes. */
  const OnapPageSize: u32 := 50

  lemma OnapApiUrl()
    ensures ApiUrl(Onap) == "https://wiki.onap.org/rest/api"
  {
  }

  /** The first request of `main`'s run. */
  lemma OnapFirstRequest()
    ensures ContentsUrl(Onap, OnapPageSize)
         == "https://wiki.onap.org/rest/api/content?type=page&expand=space&limit=50&status=current&start=0"
  {
    OnapApiUrl();
    assert DecimalString(50) == "50";
    OnapFirstRequestText();
  }

  lemma OnapFirstRequestText()
    ensures "https://wiki.onap.org/rest/api" + "/content?type=page&expand=space&limit=" + "50" + "&status=current&start=0"
         == "https://wiki.onap.org/rest/api/content?type=page&expand=space&limit=50&status=current&start=0"
  {
    assert "https://wiki.onap.org/rest/api" + "/content?type=page&expand=space&limit=" + "50"
        == "https://wiki.onap.org/rest/api/content?type=page&expand=space&limit=50";
  }

  /** The attachment walk `main` starts for a content item with id 123. */
  lemma OnapAttachmentRequest()
    ensures AttachmentsUrl(Onap, "123", OnapPageSize, OnapMediaTypes[0])
         == "https://wiki.onap.org/rest/api/content/123/child/attachment?limit=50&mediaType=video/mp4"
  {
    OnapApiUrl();
    assert DecimalString(50) == "50";
    OnapAttachmentRequestText();
  }

  lemma OnapAttachmentRequestText()
    ensures "https://wiki.onap.org/rest/api" + "/content/" + "123" + "/child/attachment?limit=" + "50" + "&mediaType=" + "video/mp4"
         == "https://wiki.onap.org/rest/api/content/123/child/attachment?limit=50&mediaType=video/mp4"
  {
    var s1 := "https://wiki.onap.org/rest/api" + "/content/" + "123";
    assert s1 == "https://wiki.onap.org/rest/api/content/123";
    var s2 := s1 + "/child/attachment?limit=";
    assert s2 == "https://wiki.onap.org/rest/api/content/123/child/attachment?limit=";
    var s3 := s2 + "50";
    assert s3 == "https://wiki.onap.org/rest/api/content/123/child/attachment?limit=50";
    var s4 := s3 + "&mediaType=";
    assert s4 == "https://wiki.onap.org/rest/api/content/123/child/attachment?limit=50&mediaType=";
  }

  /** A cursor is appended to the base URL exactly as sent. */
  lemma StitchExample()
    ensures NextUrl(Confluence("https://example.org", "rest/api"), "/rest/api/content?start=50")
         == "https://example.org/rest/api/content?start=50"
  {
  }

  const Wiki: Confluence := Confluence("https://wiki.example.org", "rest/api")
  const Home: Content := Content("123", Space("ONAP"), "Home")
  const Demo: Attachment := Attachment("456", "demo.mp4", "/download/456")

  /** A server with one content page holding `Home`, whose one attachment page holds `Demo`. */
  function OnePageApi(): Api {
    Api(
      u => if u == ContentsUrl(Wiki, 50) then Reply(StatusOk, Some(Page([Home], None))) else NoReply,
      u => if u == AttachmentsUrl(Wiki, "123", 50, "video/mp4") then Reply(StatusOk, Some(Page([Demo], None))) else NoReply)
  }

  /** The printed line of `Demo`, field by field. */
  const DemoLineText: string :=
    "\"ONAP/Home/demo.mp4\"" + " " + "https://wiki.example.org/download/456" + " "
      + "https://wiki.example.org/rest/api/content/123/child/attachment/456/data"

  lemma DemoDataUrl()
    ensures DataUrl(Wiki, Home, Demo) == "https://wiki.example.org/rest/api/content/123/child/attachment/456/data"
  {
    assert ApiUrl(Wiki) == "https://wiki.example.org/rest/api";
    DemoDataUrlText();
  }

  lemma DemoDataUrlText()
    ensures "https://wiki.example.org/rest/api" + "/content/" + "123" + "/child/attachment/" + "456" + "/data"
         == "https://wiki.example.org/rest/api/content/123/child/attachment/456/data"
  {
    var d1 := "https://wiki.example.org/rest/api" + "/content/" + "123";
    assert d1 == "https://wiki.example.org/rest/api/content/123";
    var d2 := d1 + "/child/attachment/" + "456";
    assert d2 == "https://wiki.example.org/rest/api/content/123/child/attachment/456";
  }

  /** The line printed for `Demo`: quoted path, download URL and raw-bytes URL, separated by spaces. */
  lemma DemoLine()
    ensures AttachmentLine(Wiki, Home, Demo) == DemoLineText
  {
    DemoDataUrl();
    assert QuotedPath(Home, Demo) == "\"ONAP/Home/demo.mp4\"";
    assert DownloadUrl(Wiki, Demo) == "https://wiki.example.org/download/456";
  }

  /** The whole run over that server: one attachment line, then the final notice. */
  lemma OnePageRun()
    ensures Crawl(Wiki, OnePageApi(), ["video/mp4"], 50, 1, ContentsUrl(Wiki, 50), 1)
         == Run([DemoLineText, "All contents processed."], Finished)
  {
    var api := OnePageApi();
    assert ApiCall(api.contents, ContentsUrl(Wiki, 50)) == Ok(Page([Home], None));
    assert ApiCall(api.attachments, AttachmentsUrl(Wiki, "123", 50, "video/mp4")) == Ok(Page([Demo], None));
    var w := AttachmentWalk(Wiki, api, "123", "video/mp4", 50, 1);
    assert w == Walk([AttachmentsUrl(Wiki, "123", 50, "video/mp4")], [Demo], Finished);
    assert AttachmentLines(Wiki, Home, [Demo]) == [AttachmentLine(Wiki, Home, Demo)];
    assert ContentRun(Wiki, api, Home, ["video/mp4"], 50, 1) == Run([AttachmentLine(Wiki, Home, Demo)], Finished);
    assert PageRun(Wiki, api, [Home], ["video/mp4"], 50, 1) == Run([AttachmentLine(Wiki, Home, Demo)], Finished);
    DemoLine();
  }
}
