/** The records that flow through the pipeline: raw upstream items and enriched articles. */
module Articles {
  import opened Wrappers

  /**
   * A parsed `publishedAt` timestamp: the instant in whole seconds since the epoch, and the
   * "DD Mon YYYY" rendering of the same calendar date (what `strftime("%d %b %Y")` produces).
   */
  datatype ParsedTime = ParsedTime(epochSeconds: int, calendarDate: string)

  /**
   * One item of the news API's `articles` list. Optional fields are `None` when absent or JSON
   * null; `publishedAt` is `None` when the timestamp is missing or not strict ISO-8601.
   */
  datatype RawArticle = RawArticle(
    title: string,
    url: string,
    sourceName: string,
    image: Option<string>,
    content: Option<string>,
    description: Option<string>,
    publishedAt: Option<ParsedTime>)

  /** The enriched record shown to the reader and cached as part of a query response. */
  datatype Article = Article(
    title: string,
    summary: string,
    sentiment: Option<string>,
    url: string,
    source: string,
    image: Option<string>,
    publishedAt: string)

  /** The fields copied verbatim from the raw record. */
  predicate SameOrigin(a: Article, raw: RawArticle)
  {
    a.title == raw.title && a.url == raw.url && a.source == raw.sourceName && a.image == raw.image
  }
}
