/**
 * The records the pipeline passes around: normalized items (app/models.py)
 * and the configuration shapes (app/config.py).
 */
module Models {
  import opened Wrappers

  /**
   * One content item in the common shape.  The publication time is a UTC
   * instant in seconds; a fetcher never emits an item without one.
   */
  datatype NormalizedItem = NormalizedItem(
    sourceId: string,
    sourceDisplayName: string,
    title: string,
    url: string,
    publishedAt: int,
    description: Option<string>)

  /** Channel metadata of the output feed and the item limit. */
  datatype FeedConfig = FeedConfig(
    title: string,
    description: string,
    link: string,
    language: string,
    maxItems: int)

  /**
   * One configured source.  The type is kept as the string read from the
   * configuration, since nothing checks it before the fetcher is created.
   */
  datatype SourceConfig = SourceConfig(
    id: string,
    sourceType: string,
    displayName: string,
    enabled: bool,
    channelId: Option<string>,
    rssUrl: Option<string>)

  datatype AppConfig = AppConfig(feed: FeedConfig, sources: seq<SourceConfig>)

  const YouTubeChannelType: string := "youtube_channel"
  const GenericRssType: string := "generic_rss"

  /** Why one source produced no items; each is recorded as a per-source failure. */
  datatype SourceError =
    | MissingChannelId(sourceId: string)
    | MissingRssUrl(sourceId: string)
    | UnknownSourceType(sourceType: string)
    | FetchFailed(requestUrl: string)

  /** A string that Python treats as true: present and non-empty. */
  predicate Truthy(s: Option<string>) {
    s.Some? && s.value != ""
  }
}
