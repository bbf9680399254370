# rss-feed aggregator: a Dafny model

The system gathers items from YouTube channel feeds and from generic RSS/Atom
feeds. It normalizes them into one item shape and renders a single RSS 2.0
document. This project models that pipeline and proves its properties:

- **Fetchers** (`youtube.dfy`, `generic_rss.py` → `generic_rss.dfy`): fail-fast
  construction, the request/attribution URL, the date parsing, and the fetch
  loop. The fetch loop drops every entry without a parseable date.
  `normalization.dfy` holds the specification that both fetch loops are proved
  against.
- **Dates** (`dates.dfy`): the `"Z"` → `"+00:00"` rewrite, the ISO 8601 parse
  (an abstract partial function), and the UTC default for a value without a
  zone.
- **Feed builder** (`sorting.dfy`, `feed_builder.dfy`, `element_tree.dfy`):
  a stable newest-first sort, then Python's prefix slice by `max_items`. The
  element tree (`rss` / `channel` / `item`) is built by a loop, one item
  element per kept item.
- **Orchestrator** (`orchestrator.dfy`): `create_fetcher` dispatches on the
  source type. The loop over enabled sources isolates each source's failure,
  keeps success and failure counters, concatenates items and builds the
  `source_id → source_url` map. The run aborts only when no source succeeded
  and at least one failed.

Timestamps are integers: UTC instants in seconds. A feed entry is a record with
optional fields. The network is an input: one `Response` per enabled source
(the parsed entries, or a request error). That response is consulted only when
the source's fetcher was constructed. The date library (`fromisoformat`,
`mktime`), the date formatter, the clock reading and the XML serialiser are
parameters.

Where the code and its documented intent differ, the model follows the code:

- A missing description falls back to the display name, and that name may
  itself be empty.
- The generic RSS string fallback uses only the ISO 8601 parser. A string in
  RFC 822 form therefore goes through `fromisoformat` like any other.
- `max_items` is not validated. A negative value slices from the end
  (`Truncate`).
- Each constructor rejects an empty locator as well as a missing one.
- A non-empty but unparseable `published` string in a generic RSS entry does
  not fall back to `updated`.

## Model

| member | source | states |
|---|---|---|
| `Dates.ReplaceZ` | app/sources/youtube.py:56 | After the rewrite there is no `Z` left. A string without `Z` is unchanged. |
| `Dates.ReplaceZAppend` | app/sources/generic_rss.py:62 | The rewrite works character by character, so it splits over concatenation. |
| `Dates.ParseIsoUtc` | app/sources/youtube.py:53-61 | Parsing the rewritten string: a parse failure gives `None`, not an error. A naive value's wall clock is read as UTC. A value with an offset gives its wall clock minus that offset. |
| `Dates.TrailingZIsUtc` | app/sources/youtube.py:56-58 | A trailing `Z` gives the same instant as an explicit `+00:00`. |
| `Dates.ReplaceZExample` | app/sources/youtube.py:56 | `2024-01-15T10:30:00Z` reaches the parser as `2024-01-15T10:30:00+00:00`. |
| `Normalization.KeepDated` | app/sources/youtube.py:32-46 | A fetch loop never yields more items than there are entries. |
| `Normalization.KeepDatedAppend` | app/sources/youtube.py:32-46 | Entries are handled one at a time, in feed order. The items for `a + b` are those for `a` followed by those for `b`. |
| `Normalization.KeepDatedKeepsAll` | app/sources/generic_rss.py:31-46 | The item count equals the entry count exactly when every entry has a date. |
| `Normalization.KeepDatedSound` | app/sources/generic_rss.py:31-46 | Every item is the mapping of some dated entry, and it carries that entry's date. |
| `Normalization.KeepDatedComplete` | app/sources/generic_rss.py:31-46 | Every dated entry yields its item. Only undated entries are dropped. |
| `YouTube.New` | app/sources/youtube.py:18-21 | Construction succeeds exactly when `channel_id` is present and non-empty. The error names the source id. The source URL is the feed template filled with the channel id. |
| `YouTube.SourceUrl` | app/sources/youtube.py:63-66 | The attribution URL is the request URL. It is the feed prefix followed by the channel id, so it is non-empty and the id can be read back from it. |
| `YouTube.ParseDate` | app/sources/youtube.py:49-61 | A missing or empty string gives `None`. Any other string goes through the `Z` rewrite, the ISO parse and the UTC default. |
| `YouTube.Fetch` | app/sources/youtube.py:23-47 | The loop returns exactly the items of the dated entries, in feed order, and never more items than entries. Each item has the config's id and display name. Title and link default to `""`. The description is the summary as given. |
| `GenericRss.New` | app/sources/generic_rss.py:18-21 | Construction succeeds exactly when `rss_url` is present and non-empty. The source URL is the configured `rss_url`. |
| `GenericRss.ParseDate` | app/sources/generic_rss.py:50-69 | Priority: `published_parsed`, then `updated_parsed` (through `mktime`). Only without either does it read the `published` string, or `updated` when `published` is missing or empty. The chosen string is parsed. No date source at all gives `None`. |
| `GenericRss.StructuredTimeWins` | app/sources/generic_rss.py:53-56 | When a structured time is present, the string fields do not affect the date. |
| `GenericRss.Description` | app/sources/generic_rss.py:36 | The summary when it is non-empty, otherwise the description field as given. |
| `GenericRss.Fetch` | app/sources/generic_rss.py:23-48 | The loop keeps exactly the entries with a date, in feed order. The items carry config id and name, default title and link, and the description fallback. |
| `Sorting.SortNewestFirst` | app/feed_builder.py:32 | The sorted sequence is a permutation of the input. |
| `Sorting.SortIsNewestFirst` | app/feed_builder.py:32 | Publication instants are non-increasing. |
| `Sorting.SortIsStable` | app/feed_builder.py:32 | For every instant, the items published at it appear in their input order. |
| `FeedBuilder.Truncate` | app/feed_builder.py:35 | The result is a prefix. For `n >= 0` its length is `min(len, n)`. For `n < 0` it drops `-n` items from the end. |
| `FeedBuilder.SelectedNewestFirst` | app/feed_builder.py:32-35 | The kept items are ordered newest first. |
| `FeedBuilder.SelectedStable` | app/feed_builder.py:32-35 | For each instant, the kept items published at it are the first of the input's items at that instant, in input order. |
| `FeedBuilder.SelectedCount` | app/feed_builder.py:35 | `min(len(items), max_items)` items are kept for `max_items >= 0`. Every kept item is an input item (multiset inclusion). |
| `FeedBuilder.SelectedKeepsNewest` | app/feed_builder.py:32-35 | No dropped item is newer than a kept one. |
| `FeedBuilder.SelectedExample` | tests/test_feed_builder.py:78-91 | Items of the 15th, 14th and 16th come out as 16th, 15th, 14th. A limit of 2 keeps only the 16th and the 15th. |
| `FeedBuilder.ItemElements` | app/feed_builder.py:52-53 | There is one item element per kept item, in order. |
| `FeedBuilder.Build` | app/feed_builder.py:15-67 | The loop-built tree equals `FeedTree` for the same config, items, URL map, clock reading and formatter. A missing map behaves as empty. |
| `FeedBuilder.Serialize` | app/feed_builder.py:69-71 | The document starts with the XML declaration followed by a newline. |
| `FeedBuilder.FeedChannel` | app/feed_builder.py:38-49 | The root is `rss version="2.0"` with a single `channel`. The channel's first children are `title`, `link`, `description`, `language` and `lastBuildDate`, in that order. Their texts are copied verbatim, and the last one is the formatted clock reading. This holds for any items, including none. |
| `FeedBuilder.FeedItems` | app/feed_builder.py:51-53 | `findall("item")` on the channel gives the item elements of the kept items, in order. |
| `FeedBuilder.FeedItemCount` | app/feed_builder.py:35-53 | The channel has `min(len(items), max_items)` item elements for `max_items >= 0`, and none when there are no items. |
| `FeedBuilder.ItemGuidIsLink` | app/feed_builder.py:54-61 | The `title` text is the title. The `link` and `guid` texts are both the URL, and `guid` has `isPermaLink="true"`. The `pubDate` text is the formatted publication instant. |
| `FeedBuilder.ItemDescription` | app/feed_builder.py:56-58 | The `description` text is the item's description when non-empty, otherwise the display name. |
| `FeedBuilder.ItemSource` | app/feed_builder.py:63-67 | A `source` element exists exactly when the map gives the item's source id a non-empty URL. Its `url` attribute is that URL and its text is the display name. |
| `FeedBuilder.EveryItemAttributed` | app/feed_builder.py:63-67 | When every item's source id maps to a non-empty URL, every item element in the channel has a `source` element. |
| `Orchestrator.CreateFetcher` | app/main.py:18-25 | `youtube_channel` gives the YouTube fetcher and `generic_rss` the generic one, each subject to its constructor check. Any other type is an `UnknownSourceType` error. A created fetcher keeps its config, and its source URL is non-empty and equals its request URL. |
| `Orchestrator.FetchedItems` | app/sources/base.py:18-24 | Every item a fetcher produces carries the fetcher's source id. |
| `Orchestrator.Fetch` | app/main.py:51-52 | A request error fails the source with the request URL. Otherwise the result is the variant's normalized items. |
| `Orchestrator.EnabledSources` | app/main.py:41 | A source is kept exactly when it is configured and enabled. |
| `Orchestrator.EnabledSourcesAppend` | app/main.py:41 | Filtering keeps configuration order. |
| `Orchestrator.Outcome` | app/main.py:50-59 | A source succeeds exactly when construction and fetch both succeed. A success has a non-empty URL, and its items carry the source's id. |
| `Orchestrator.CollectCounts` | app/main.py:46-59 | `success_count + fail_count` is the number of enabled sources. There are no successes exactly when every source failed. |
| `Orchestrator.AbortsExactlyWhenAllFail` | app/main.py:66-69 | The abort condition holds exactly when there is at least one enabled source and all of them failed. |
| `Orchestrator.CollectAppend` | app/main.py:49-56 | Collecting part by part: the items concatenate in order and the counts add up. A later part's URL entries override an earlier part's. |
| `Orchestrator.CollectItemsFromSuccesses` | app/main.py:51-59 | Every collected item comes from a source that succeeded. A failed source contributes nothing. |
| `Orchestrator.CollectUrlKeys` | app/main.py:54 | The URL map has a key exactly for each id of a source that succeeded. |
| `Orchestrator.CollectUrlLatest` | app/main.py:54 | Each id maps to the URL of the last source with that id that succeeded. |
| `Orchestrator.CollectAttributes` | app/main.py:53-54 | Every collected item's source id maps to a non-empty URL. |
| `Orchestrator.CollectSources` | app/main.py:44-59 | The loop's final `all_items`, `source_urls` and counters are those `Collect` gives for the per-source outcomes. The counters add up to the number of enabled sources. |
| `Orchestrator.Run` | app/main.py:40-73 | Abort exactly when `success_count == 0 and fail_count > 0`. Otherwise the result is the feed built from all collected items and the URL map, and its text. Zero enabled sources still build a feed. |
| `Orchestrator.WrittenFeedAttributesEveryItem` | app/main.py:72-79 | A written feed holds `min(len(all_items), max_items)` items for `max_items >= 0`. Every item element in it has a `source` element. |

## Left out

- HTTP: the request, `raise_for_status` and the 30-second timeout are network I/O. Each request is an input `Response`, and `HttpError` stands for every way it can fail.
- Feed parsing: `feedparser.parse` is a foreign library. Its entries are input records with optional fields, and the fields are independent (the library's own key aliasing is not modelled).
- Date library: `datetime.fromisoformat` and `time.mktime` / `datetime.fromtimestamp` are library code. `mktime` depends on the local time zone and works in floating point. Both are abstract functions in `DateLib`. An instant is an integer and keeps no UTC offset, so an item's `pubDate` cannot show the original offset.
- Output formatting: `email.utils.format_datetime` (the date format of section 3.3 of RFC 2822) and `datetime.now` are a formatter parameter and a clock-reading parameter.
- XML serialisation: ElementTree's `tostring` and its escaping are library output. The model produces the element tree, and `Serialize` takes the serialiser as a parameter.
- Config loading: `load_config`, YAML reading and the file-existence check are file I/O. The configuration is an input value.
- Process plumbing: the logging setup, the log lines, `sys.exit`, `mkdir` and the file write are side effects. An abort is the `Aborted` result, and a written feed is `Written`.
- Exceptions other than request errors: for example, an exception raised inside feed parsing or `mktime` would count as a per-source failure in the program. It is not modelled.
