/** The YouTube channel fetcher (app/sources/youtube.py). */
module YouTube {
  import opened Wrappers
  import opened Models
  import opened Entries
  import opened Dates
  import opened Normalization

  /** The channel feed address; the channel id completes the query. */
  const FeedUrlPrefix: string := "https://www.youtube.com/feeds/videos.xml?channel_id="

  /** A constructed fetcher: its configuration and the validated channel id. */
  datatype Fetcher = Fetcher(config: SourceConfig, channelId: string) {
    function SourceId(): string { config.id }
    function DisplayName(): string { config.displayName }
  }

  /** Construction fails fast when the channel id is missing or empty. */
  function New(config: SourceConfig): (r: Result<Fetcher, SourceError>)
    ensures r.Ok? <==> Truthy(config.channelId)
    ensures r.Ok? ==> r.value.config == config && Some(r.value.channelId) == config.channelId
    ensures r.Ok? ==> SourceUrl(r.value) == FeedUrlPrefix + config.channelId.value
    ensures r.Err? ==> r.error == MissingChannelId(config.id)
  {
    if Truthy(config.channelId) then Ok(Fetcher(config, config.channelId.value))
    else Err(MissingChannelId(config.id))
  }

  /** The feed URL template filled in with a channel id. */
  function FeedUrl(channelId: string): string {
    FeedUrlPrefix + channelId
  }

  /** The address used for attribution: the same URL the fetch requests. */
  function SourceUrl(f: Fetcher): (u: string)
    ensures u == FeedUrl(f.channelId)
    ensures u != "" && u[..|FeedUrlPrefix|] == FeedUrlPrefix && u[|FeedUrlPrefix|..] == f.channelId
  {
    FeedUrl(f.channelId)
  }

  /** _parse_date: nothing for a missing or empty string, else the ISO parse with "Z" and UTC handling. */
  function ParseDate(dateStr: Option<string>, lib: DateLib): (r: Option<int>)
    ensures !Truthy(dateStr) ==> r.None?
    ensures Truthy(dateStr) ==> r == ParseIsoUtc(dateStr.value, lib)
  {
    if !Truthy(dateStr) then None else ParseIsoUtc(dateStr.value, lib)
  }

  /** Only the "published" string is read for the date. */
  function DateOf(lib: DateLib): Entry -> Option<int> {
    (e: Entry) => ParseDate(e.published, lib)
  }

  /** Missing title and link become "", the summary is the description as it is. */
  function ItemOf(f: Fetcher): (Entry, int) -> NormalizedItem {
    (e: Entry, t: int) => NormalizedItem(f.SourceId(), f.DisplayName(), e.title.GetOr(""), e.link.GetOr(""), t, e.summary)
  }

  /** The items a fetch produces from the entries of the channel feed. */
  function Items(f: Fetcher, entries: seq<Entry>, lib: DateLib): seq<NormalizedItem> {
    KeepDated(entries, DateOf(lib), ItemOf(f))
  }

  /**
   * fetch, after the request and the feed parse: keep, in feed order, the
   * entries whose publication string parses.
   */
  method Fetch(f: Fetcher, entries: seq<Entry>, lib: DateLib) returns (items: seq<NormalizedItem>)
    ensures items == Items(f, entries, lib)
    ensures |items| <= |entries|
    ensures forall x :: x in items ==>
      exists e :: e in entries && ParseDate(e.published, lib) == Some(x.publishedAt)
        && x == NormalizedItem(f.config.id, f.config.displayName, e.title.GetOr(""), e.link.GetOr(""), x.publishedAt, e.summary)
    ensures forall e, t :: e in entries && ParseDate(e.published, lib) == Some(t) ==>
      NormalizedItem(f.config.id, f.config.displayName, e.title.GetOr(""), e.link.GetOr(""), t, e.summary) in items
  {
    items := [];
    for i := 0 to |entries|
      invariant items == Items(f, entries[..i], lib)
    {
      var entry := entries[i];
      assert entries[..i + 1][..i] == entries[..i];
      var publishedAt := ParseDate(entry.published, lib);
      if publishedAt.None? {
        continue;
      }
      var item := NormalizedItem(
        f.SourceId(), f.DisplayName(), entry.title.GetOr(""), entry.link.GetOr(""), publishedAt.value, entry.summary);
      items := items + [item];
    }
    assert entries[..|entries|] == entries;
    KeepDatedSound(entries, DateOf(lib), ItemOf(f));
    KeepDatedComplete(entries, DateOf(lib), ItemOf(f));
  }
}
