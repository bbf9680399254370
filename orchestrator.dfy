/**
 * The run driven by main() (app/main.py): create a fetcher per enabled
 * source, isolate each source's failure, collect items and attribution URLs,
 * and build the feed unless every source failed.
 */
module Orchestrator {
  import opened Wrappers
  import opened Models
  import opened Entries
  import opened Dates
  import opened ElementTree
  import opened Sorting
  import opened FeedBuilder
  import opened Normalization
  import YouTube
  import GenericRss

  /** The fetcher variants, chosen by the source type. */
  datatype SourceFetcher = YouTubeSource(youtube: YouTube.Fetcher) | GenericRssSource(rss: GenericRss.Fetcher) {
    function Config(): SourceConfig {
      match this
      case YouTubeSource(f) => f.config
      case GenericRssSource(f) => f.config
    }
  }

  /** The address a fetcher lists in the source element of its items. */
  function SourceUrl(f: SourceFetcher): string {
    match f
    case YouTubeSource(y) => YouTube.SourceUrl(y)
    case GenericRssSource(g) => GenericRss.SourceUrl(g)
  }

  /** The address a fetcher requests. */
  function RequestUrl(f: SourceFetcher): string {
    match f
    case YouTubeSource(y) => YouTube.FeedUrl(y.channelId)
    case GenericRssSource(g) => g.rssUrl
  }

  /** create_fetcher: dispatch on the type; an unknown type is an error like a failed construction. */
  function CreateFetcher(config: SourceConfig): (r: Result<SourceFetcher, SourceError>)
    ensures config.sourceType == YouTubeChannelType ==>
      (r.Ok? <==> Truthy(config.channelId)) && (r.Ok? ==> r.value.YouTubeSource?)
    ensures config.sourceType == GenericRssType ==>
      (r.Ok? <==> Truthy(config.rssUrl)) && (r.Ok? ==> r.value.GenericRssSource?)
    ensures config.sourceType != YouTubeChannelType && config.sourceType != GenericRssType ==>
      r == Err(UnknownSourceType(config.sourceType))
    ensures r.Ok? ==> r.value.Config() == config && SourceUrl(r.value) != ""
    ensures r.Ok? ==> SourceUrl(r.value) == RequestUrl(r.value)
  {
    if config.sourceType == YouTubeChannelType then
      match YouTube.New(config)
      case Ok(f) => Ok(YouTubeSource(f))
      case Err(e) => Err(e)
    else if config.sourceType == GenericRssType then
      match GenericRss.New(config)
      case Ok(f) => Ok(GenericRssSource(f))
      case Err(e) => Err(e)
    else
      Err(UnknownSourceType(config.sourceType))
  }

  /** The items a fetcher produces from the entries of its feed. */
  function FetchedItems(f: SourceFetcher, entries: seq<Entry>, lib: DateLib): (r: seq<NormalizedItem>)
    ensures forall x :: x in r ==> x.sourceId == f.Config().id
  {
    match f
    case YouTubeSource(y) =>
      KeepDatedSound(entries, YouTube.DateOf(lib), YouTube.ItemOf(y));
      YouTube.Items(y, entries, lib)
    case GenericRssSource(g) =>
      KeepDatedSound(entries, GenericRss.DateOf(lib), GenericRss.ItemOf(g));
      GenericRss.Items(g, entries, lib)
  }

  /** fetcher.fetch(): a request error fails the source, otherwise the variant's normalisation. */
  method Fetch(f: SourceFetcher, response: Response, lib: DateLib) returns (r: Result<seq<NormalizedItem>, SourceError>)
    ensures response.HttpError? ==> r == Err(FetchFailed(RequestUrl(f)))
    ensures response.Feed? ==> r == Ok(FetchedItems(f, response.entries, lib))
  {
    match response
    case HttpError =>
      r := Err(FetchFailed(RequestUrl(f)));
    case Feed(entries) =>
      var items;
      match f {
        case YouTubeSource(y) =>
          items := YouTube.Fetch(y, entries, lib);
        case GenericRssSource(g) =>
          items := GenericRss.Fetch(g, entries, lib);
      }
      r := Ok(items);
  }

  /** The enabled sources, in configuration order. */
  function EnabledSources(sources: seq<SourceConfig>): (r: seq<SourceConfig>)
    ensures forall s :: s in r <==> s in sources && s.enabled
    ensures |r| <= |sources|
  {
    if sources == [] then []
    else (if sources[0].enabled then [sources[0]] else []) + EnabledSources(sources[1..])
  }

  /** Filtering keeps the relative order of the sources. */
  lemma {:induction false} EnabledSourcesAppend(a: seq<SourceConfig>, b: seq<SourceConfig>)
    ensures EnabledSources(a + b) == EnabledSources(a) + EnabledSources(b)
  {
    if a == [] {
      assert a + b == b;
    } else {
      var head := if a[0].enabled then [a[0]] else [];
      assert (a + b)[0] == a[0];
      assert (a + b)[1..] == a[1..] + b;
      assert EnabledSources(a + b) == head + EnabledSources(a[1..] + b);
      EnabledSourcesAppend(a[1..], b);
    }
  }

  // The per-source outcomes and what the loop accumulates from them.

  datatype SourceOutcome =
    | Succeeded(sourceId: string, items: seq<NormalizedItem>, sourceUrl: string)
    | Failed(sourceId: string, error: SourceError)

  /** What happens to one enabled source: construction, then the fetch. */
  function Outcome(source: SourceConfig, response: Response, lib: DateLib): (r: SourceOutcome)
    ensures r.sourceId == source.id
    ensures r.Succeeded? <==> CreateFetcher(source).Ok? && response.Feed?
    ensures r.Succeeded? ==> r.sourceUrl != "" && forall x :: x in r.items ==> x.sourceId == source.id
  {
    match CreateFetcher(source)
    case Err(e) => Failed(source.id, e)
    case Ok(f) =>
      match response
      case HttpError => Failed(source.id, FetchFailed(RequestUrl(f)))
      case Feed(entries) => Succeeded(source.id, FetchedItems(f, entries, lib), SourceUrl(f))
  }

  function Outcomes(enabled: seq<SourceConfig>, responses: seq<Response>, lib: DateLib): seq<SourceOutcome>
    requires |responses| == |enabled|
  {
    seq(|enabled|, k requires 0 <= k < |enabled| => Outcome(enabled[k], responses[k], lib))
  }

  /** The loop's variables: all_items, source_urls, success_count, fail_count. */
  datatype RunState = RunState(allItems: seq<NormalizedItem>, sourceUrls: map<string, string>, successCount: nat, failCount: nat)

  function Step(st: RunState, o: SourceOutcome): RunState {
    match o
    case Succeeded(id, items, url) => RunState(st.allItems + items, st.sourceUrls[id := url], st.successCount + 1, st.failCount)
    case Failed(_, _) => st.(failCount := st.failCount + 1)
  }

  /** The loop's variables after processing outs in order. */
  function Collect(outs: seq<SourceOutcome>): RunState {
    if outs == [] then RunState([], map[], 0, 0)
    else Step(Collect(outs[..|outs| - 1]), outs[|outs| - 1])
  }

  /** Every source is counted, as a success or a failure; there are no successes exactly when all failed. */
  lemma {:induction false} CollectCounts(outs: seq<SourceOutcome>)
    ensures Collect(outs).successCount + Collect(outs).failCount == |outs|
    ensures Collect(outs).successCount == 0 <==> forall o :: o in outs ==> o.Failed?
  {
    if outs != [] {
      var init := outs[..|outs| - 1];
      CollectCounts(init);
      var last := outs[|outs| - 1];
      assert Collect(outs) == Step(Collect(init), last);
      assert outs == init + [last];
      assert forall o :: o in outs <==> o in init || o == last;
      if last.Succeeded? {
        assert Collect(outs).successCount == Collect(init).successCount + 1;
        assert last in outs && !last.Failed?;
      } else {
        assert Collect(outs).successCount == Collect(init).successCount;
      }
    }
  }

  /** The run aborts exactly when there was at least one source and all failed. */
  lemma AbortsExactlyWhenAllFail(outs: seq<SourceOutcome>)
    ensures (Collect(outs).successCount == 0 && Collect(outs).failCount > 0) <==>
            (|outs| > 0 && forall o :: o in outs ==> o.Failed?)
  {
    CollectCounts(outs);
  }

  /**
   * Collecting in two parts: items concatenate in order, the URL map of the
   * later part overrides the earlier one, and the counts add up.
   */
  lemma {:induction false} CollectAppend(a: seq<SourceOutcome>, b: seq<SourceOutcome>)
    ensures Collect(a + b).allItems == Collect(a).allItems + Collect(b).allItems
    ensures Collect(a + b).sourceUrls == Collect(a).sourceUrls + Collect(b).sourceUrls
    ensures Collect(a + b).successCount == Collect(a).successCount + Collect(b).successCount
    ensures Collect(a + b).failCount == Collect(a).failCount + Collect(b).failCount
  {
    if b == [] {
      assert a + b == a;
    } else {
      var b' := b[..|b| - 1];
      var last := b[|b| - 1];
      assert (a + b)[..|a + b| - 1] == a + b';
      assert (a + b)[|a + b| - 1] == last;
      assert Collect(a + b) == Step(Collect(a + b'), last);
      assert Collect(b) == Step(Collect(b'), last);
      CollectAppend(a, b');
      var sa, sb := Collect(a), Collect(b');
      match last
      case Succeeded(id, items, url) =>
        assert (sa.allItems + sb.allItems) + items == sa.allItems + (sb.allItems + items);
        assert (sa.sourceUrls + sb.sourceUrls)[id := url] == sa.sourceUrls + sb.sourceUrls[id := url];
      case Failed(_, _) =>
    }
  }

  /** Every collected item belongs to a source that succeeded; failed sources contribute nothing. */
  lemma {:induction false} CollectItemsFromSuccesses(outs: seq<SourceOutcome>)
    ensures forall x :: x in Collect(outs).allItems ==> exists o :: o in outs && o.Succeeded? && x in o.items
  {
    if outs != [] {
      var init := outs[..|outs| - 1];
      var last := outs[|outs| - 1];
      CollectItemsFromSuccesses(init);
      assert outs == init + [last];
      forall x | x in Collect(outs).allItems
        ensures exists o :: o in outs && o.Succeeded? && x in o.items
      {
        if x in Collect(init).allItems {
          var o :| o in init && o.Succeeded? && x in o.items;
          assert o in outs;
        } else {
          assert last in outs;
        }
      }
    }
  }

  /** The URL map has a key exactly for the ids of the sources that succeeded. */
  lemma {:induction false} CollectUrlKeys(outs: seq<SourceOutcome>)
    ensures forall id :: id in Collect(outs).sourceUrls <==> exists o :: o in outs && o.Succeeded? && o.sourceId == id
  {
    if outs != [] {
      var init := outs[..|outs| - 1];
      CollectUrlKeys(init);
      assert outs == init + [outs[|outs| - 1]];
      assert forall o :: o in outs <==> o in init || o == outs[|outs| - 1];
    }
  }

  /** Each id maps to the URL of the last source with that id that succeeded. */
  lemma {:induction false} CollectUrlLatest(outs: seq<SourceOutcome>, id: string)
    requires id in Collect(outs).sourceUrls
    ensures exists i :: (0 <= i < |outs| && outs[i].Succeeded? && outs[i].sourceId == id
      && outs[i].sourceUrl == Collect(outs).sourceUrls[id]
      && forall j :: i < j < |outs| ==> !(outs[j].Succeeded? && outs[j].sourceId == id))
  {
    var init := outs[..|outs| - 1];
    var last := outs[|outs| - 1];
    if last.Succeeded? && last.sourceId == id {
      assert outs[|outs| - 1] == last;
    } else {
      CollectUrlLatest(init, id);
      var i :| 0 <= i < |init| && init[i].Succeeded? && init[i].sourceId == id
        && init[i].sourceUrl == Collect(init).sourceUrls[id]
        && forall j :: i < j < |init| ==> !(init[j].Succeeded? && init[j].sourceId == id);
      assert outs[i] == init[i];
      assert forall j :: i < j < |outs| ==> !(outs[j].Succeeded? && outs[j].sourceId == id) by {
        forall j | i < j < |outs| ensures !(outs[j].Succeeded? && outs[j].sourceId == id) {
          if j < |init| { assert outs[j] == init[j]; }
        }
      }
    }
  }

  /** Succeeded outcomes as Outcome builds them: a non-empty URL, items carrying the source's id. */
  ghost predicate Attributed(outs: seq<SourceOutcome>) {
    forall o :: o in outs && o.Succeeded? ==> o.sourceUrl != "" && forall x :: x in o.items ==> x.sourceId == o.sourceId
  }

  /** Every collected item's source has a non-empty URL in the map. */
  lemma {:induction false} CollectAttributes(outs: seq<SourceOutcome>)
    requires Attributed(outs)
    ensures forall x :: x in Collect(outs).allItems ==>
      x.sourceId in Collect(outs).sourceUrls && Collect(outs).sourceUrls[x.sourceId] != ""
  {
    if outs != [] {
      var init := outs[..|outs| - 1];
      var last := outs[|outs| - 1];
      assert outs == init + [last];
      assert forall o :: o in init ==> o in outs;
      CollectAttributes(init);
    }
  }

  lemma OutcomesAttributed(enabled: seq<SourceConfig>, responses: seq<Response>, lib: DateLib)
    requires |responses| == |enabled|
    ensures Attributed(Outcomes(enabled, responses, lib))
  {
    var outs := Outcomes(enabled, responses, lib);
    forall o | o in outs && o.Succeeded?
      ensures o.sourceUrl != "" && forall x :: x in o.items ==> x.sourceId == o.sourceId
    {
      var k :| 0 <= k < |outs| && outs[k] == o;
      assert o == Outcome(enabled[k], responses[k], lib);
    }
  }

  // The loop and the run.

  /** The loop over the enabled sources (main(), before the abort decision). */
  method CollectSources(enabled: seq<SourceConfig>, responses: seq<Response>, lib: DateLib)
    returns (allItems: seq<NormalizedItem>, sourceUrls: map<string, string>, successCount: nat, failCount: nat)
    requires |responses| == |enabled|
    ensures RunState(allItems, sourceUrls, successCount, failCount) == Collect(Outcomes(enabled, responses, lib))
    ensures successCount + failCount == |enabled|
  {
    ghost var outs := Outcomes(enabled, responses, lib);
    allItems, sourceUrls := [], map[];
    successCount, failCount := 0, 0;
    for i := 0 to |enabled|
      invariant RunState(allItems, sourceUrls, successCount, failCount) == Collect(outs[..i])
    {
      assert outs[..i + 1][..i] == outs[..i];
      var source := enabled[i];
      var fetcher := CreateFetcher(source);
      if fetcher.Err? {
        failCount := failCount + 1;
        continue;
      }
      var items := Fetch(fetcher.value, responses[i], lib);
      if items.Err? {
        failCount := failCount + 1;
        continue;
      }
      allItems := allItems + items.value;
      sourceUrls := sourceUrls[source.id := SourceUrl(fetcher.value)];
      successCount := successCount + 1;
    }
    assert outs[..|enabled|] == outs;
    CollectCounts(outs);
  }

  datatype RunResult = Aborted | Written(feed: Element, xml: string)

  /**
   * main() from the source filter to the feed text: abort, keeping the old
   * feed, exactly when no source succeeded and at least one failed.
   */
  method Run(config: AppConfig, responses: seq<Response>, lib: DateLib, now: int,
             formatDate: int -> string, toXml: Element -> string) returns (r: RunResult)
    requires |responses| == |EnabledSources(config.sources)|
    ensures var st := Collect(Outcomes(EnabledSources(config.sources), responses, lib));
      && (r.Aborted? <==> st.successCount == 0 && st.failCount > 0)
      && (r.Written? ==> r.feed == FeedTree(config.feed, st.allItems, Some(st.sourceUrls), now, formatDate)
                         && r.xml == Serialize(r.feed, toXml))
    ensures EnabledSources(config.sources) == [] ==> r.Written?
  {
    var enabledSources := EnabledSources(config.sources);
    var allItems, sourceUrls, successCount, failCount := CollectSources(enabledSources, responses, lib);
    if successCount == 0 && failCount > 0 {
      return Aborted;
    }
    var feed := Build(config.feed, allItems, Some(sourceUrls), now, formatDate);
    r := Written(feed, Serialize(feed, toXml));
  }

  /**
   * The feed a run writes: min(|all_items|, max_items) items, and every one
   * carries a source element, since every collected item's source succeeded
   * with a non-empty URL.
   */
  lemma WrittenFeedAttributesEveryItem(config: AppConfig, responses: seq<Response>, lib: DateLib, now: int,
                                       formatDate: int -> string)
    requires |responses| == |EnabledSources(config.sources)|
    ensures var st := Collect(Outcomes(EnabledSources(config.sources), responses, lib));
      var channel := FeedTree(config.feed, st.allItems, Some(st.sourceUrls), now, formatDate).children[0];
      && (0 <= config.feed.maxItems ==> |FindAll(channel.children, "item")| == Min(|st.allItems|, config.feed.maxItems))
      && forall e :: e in FindAll(channel.children, "item") ==> FindChild(e.children, "source").Some?
  {
    var outs := Outcomes(EnabledSources(config.sources), responses, lib);
    var st := Collect(outs);
    OutcomesAttributed(EnabledSources(config.sources), responses, lib);
    CollectAttributes(outs);
    FeedItemCount(config.feed, st.allItems, Some(st.sourceUrls), now, formatDate);
    EveryItemAttributed(config.feed, st.allItems, st.sourceUrls, now, formatDate);
  }
}
