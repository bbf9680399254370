/** The fetcher for arbitrary RSS and Atom feeds (app/sources/generic_rss.py). */
module GenericRss {
  import opened Wrappers
  import opened Models
  import opened Entries
  import opened Dates
  import opened Normalization

  /** A constructed fetcher: its configuration and the validated feed URL. */
  datatype Fetcher = Fetcher(config: SourceConfig, rssUrl: string) {
    function SourceId(): string { config.id }
    function DisplayName(): string { config.displayName }
  }

  /** Construction fails fast when the feed URL is missing or empty. */
  function New(config: SourceConfig): (r: Result<Fetcher, SourceError>)
    ensures r.Ok? <==> Truthy(config.rssUrl)
    ensures r.Ok? ==> r.value.config == config && Some(r.value.rssUrl) == config.rssUrl
    ensures r.Ok? ==> Some(SourceUrl(r.value)) == config.rssUrl && SourceUrl(r.value) != ""
    ensures r.Err? ==> r.error == MissingRssUrl(config.id)
  {
    if Truthy(config.rssUrl) then Ok(Fetcher(config, config.rssUrl.value))
    else Err(MissingRssUrl(config.id))
  }

  /** The address used for attribution: the configured feed URL, which is also what the fetch requests. */
  function SourceUrl(f: Fetcher): string {
    f.rssUrl
  }

  /** A structured time if either structured field is present, the published one first. */
  function StructuredTime(e: Entry): Option<StructTime> {
    if e.publishedParsed.Some? then e.publishedParsed else e.updatedParsed
  }

  /** The raw date string: "published" unless it is missing or empty, then "updated". */
  function DateString(e: Entry): Option<string> {
    if Truthy(e.published) then e.published else e.updated
  }

  /**
   * _parse_date: a structured time wins and the strings are then never read;
   * otherwise the chosen string is parsed, and a failure gives None without
   * trying the other string.
   */
  function ParseDate(e: Entry, lib: DateLib): (r: Option<int>)
    ensures e.publishedParsed.Some? ==> r == Some(lib.mktime(e.publishedParsed.value))
    ensures e.publishedParsed.None? && e.updatedParsed.Some? ==> r == Some(lib.mktime(e.updatedParsed.value))
    ensures e.publishedParsed.None? && e.updatedParsed.None? && Truthy(e.published) ==>
      r == ParseIsoUtc(e.published.value, lib)
    ensures e.publishedParsed.None? && e.updatedParsed.None? && !Truthy(e.published) && Truthy(e.updated) ==>
      r == ParseIsoUtc(e.updated.value, lib)
    ensures e.publishedParsed.None? && e.updatedParsed.None? && !Truthy(e.published) && !Truthy(e.updated) ==>
      r.None?
  {
    var timeStruct := StructuredTime(e);
    if timeStruct.Some? then Some(lib.mktime(timeStruct.value))
    else
      var dateStr := DateString(e);
      if Truthy(dateStr) then ParseIsoUtc(dateStr.value, lib) else None
  }

  /** When a structured time is present the date does not depend on the string fields. */
  lemma StructuredTimeWins(e: Entry, published: Option<string>, updated: Option<string>, lib: DateLib)
    requires e.publishedParsed.Some? || e.updatedParsed.Some?
    ensures ParseDate(e, lib) == ParseDate(e.(published := published, updated := updated), lib)
  {
  }

  /** The description: the summary when it is non-empty, else the description field as it is. */
  function Description(e: Entry): (d: Option<string>)
    ensures Truthy(e.summary) ==> d == e.summary
    ensures !Truthy(e.summary) ==> d == e.description
  {
    if Truthy(e.summary) then e.summary else e.description
  }

  function DateOf(lib: DateLib): Entry -> Option<int> {
    (e: Entry) => ParseDate(e, lib)
  }

  /** Missing title and link become "", the description falls back from summary to description. */
  function ItemOf(f: Fetcher): (Entry, int) -> NormalizedItem {
    (e: Entry, t: int) => NormalizedItem(f.SourceId(), f.DisplayName(), e.title.GetOr(""), e.link.GetOr(""), t, Description(e))
  }

  /** The items a fetch produces from the entries of the feed. */
  function Items(f: Fetcher, entries: seq<Entry>, lib: DateLib): seq<NormalizedItem> {
    KeepDated(entries, DateOf(lib), ItemOf(f))
  }

  /**
   * fetch, after the request and the feed parse: keep, in feed order, the
   * entries for which a date is found.
   */
  method Fetch(f: Fetcher, entries: seq<Entry>, lib: DateLib) returns (items: seq<NormalizedItem>)
    ensures items == Items(f, entries, lib)
    ensures |items| <= |entries|
    ensures forall x :: x in items ==>
      exists e :: e in entries && ParseDate(e, lib) == Some(x.publishedAt)
        && x == NormalizedItem(f.config.id, f.config.displayName, e.title.GetOr(""), e.link.GetOr(""), x.publishedAt, Description(e))
    ensures forall e, t :: e in entries && ParseDate(e, lib) == Some(t) ==>
      NormalizedItem(f.config.id, f.config.displayName, e.title.GetOr(""), e.link.GetOr(""), t, Description(e)) in items
  {
    items := [];
    for i := 0 to |entries|
      invariant items == Items(f, entries[..i], lib)
    {
      var entry := entries[i];
      assert entries[..i + 1][..i] == entries[..i];
      var publishedAt := ParseDate(entry, lib);
      if publishedAt.None? {
        continue;
      }
      var description := if Truthy(entry.summary) then entry.summary else entry.description;
      var item := NormalizedItem(
        f.SourceId(), f.DisplayName(), entry.title.GetOr(""), entry.link.GetOr(""), publishedAt.value, description);
      items := items + [item];
    }
    assert entries[..|entries|] == entries;
    KeepDatedSound(entries, DateOf(lib), ItemOf(f));
    KeepDatedComplete(entries, DateOf(lib), ItemOf(f));
  }
}
