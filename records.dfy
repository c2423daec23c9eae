/**
 * The decoded records of the Confluence REST API that the crawler reads.
 * Fields that are decoded but never used by the crawler (the web-UI link of a
 * content item, the numeric id of a space, the `base` of a page's links) are
 * not modelled.
 */
module Records {
  import opened Wrappers

  /** The space a content item lives in; only its key is used. */
  datatype Space = Space(key: string)

  /** One content item of a content listing page. */
  datatype Content = Content(id: string, space: Space, title: string)

  /** One attachment; `download` is the relative link of `_links.download`. */
  datatype Attachment = Attachment(id: string, title: string, download: string)

  /**
   * One page of a paginated listing: its `results` and the relative
   * `_links.next` cursor, present only when more pages follow.
   */
  datatype Page<T> = Page(results: seq<T>, next: Option<string>)

  type ContentResponse = Page<Content>
  type AttachmentResponse = Page<Attachment>
}
