/**
 * FeedBuilder.build (app/feed_builder.py): sort newest first, keep the first
 * max_items, and build the rss/channel element tree with one item element
 * per kept item.
 */
module FeedBuilder {
  import opened Wrappers
  import opened Models
  import opened Sorting
  import opened ElementTree

  const XmlDeclaration: string := "<?xml version=\"1.0\" encoding=\"UTF-8\"?>"

  function Min(a: int, b: int): int {
    if a <= b then a else b
  }

  /** Python's prefix slice s[:n], for every integer n (a negative n counts from the end). */
  function Truncate(s: seq<NormalizedItem>, n: int): (r: seq<NormalizedItem>)
    ensures |r| <= |s| && r == s[..|r|]
    ensures 0 <= n ==> |r| == Min(|s|, n)
    ensures n < 0 ==> |r| == if -n <= |s| then |s| + n else 0
  {
    if 0 <= n then (if n <= |s| then s[..n] else s)
    else if -n <= |s| then s[..|s| + n] else []
  }

  /** The items that reach the feed, in feed order. */
  function Selected(items: seq<NormalizedItem>, maxItems: int): seq<NormalizedItem> {
    Truncate(SortNewestFirst(items), maxItems)
  }

  /** item.description or item.source_display_name */
  function DescriptionText(item: NormalizedItem): string {
    if Truthy(item.description) then item.description.value else item.sourceDisplayName
  }

  /** source_urls.get(source_id, "") */
  function SourceUrlOf(urls: map<string, string>, sourceId: string): string {
    if sourceId in urls then urls[sourceId] else ""
  }

  /** The item element for one kept item. */
  function ItemElement(item: NormalizedItem, urls: map<string, string>, formatDate: int -> string): Element {
    var fields := [
      Leaf("title", item.title),
      Leaf("link", item.url),
      Leaf("description", DescriptionText(item)),
      Leaf("pubDate", formatDate(item.publishedAt)),
      Element("guid", [Attribute("isPermaLink", "true")], Some(item.url), [])];
    var sourceUrl := SourceUrlOf(urls, item.sourceId);
    var source := if sourceUrl != "" then [Element("source", [Attribute("url", sourceUrl)], Some(item.sourceDisplayName), [])] else [];
    Element("item", [], None, fields + source)
  }

  function ItemElements(items: seq<NormalizedItem>, urls: map<string, string>, formatDate: int -> string): (r: seq<Element>)
    ensures |r| == |items|
    ensures forall k :: 0 <= k < |items| ==> r[k] == ItemElement(items[k], urls, formatDate)
  {
    if items == [] then []
    else ItemElements(items[..|items| - 1], urls, formatDate) + [ItemElement(items[|items| - 1], urls, formatDate)]
  }

  /** The channel metadata children, in their fixed order. */
  function ChannelMetadata(config: FeedConfig, lastBuildDate: string): seq<Element> {
    [Leaf("title", config.title),
     Leaf("link", config.link),
     Leaf("description", config.description),
     Leaf("language", config.language),
     Leaf("lastBuildDate", lastBuildDate)]
  }

  /** The tree build produces; a missing URL map behaves as an empty one. */
  function FeedTree(config: FeedConfig, items: seq<NormalizedItem>, sourceUrls: Option<map<string, string>>,
                    now: int, formatDate: int -> string): Element
  {
    var urls := sourceUrls.GetOr(map[]);
    var channel := Element("channel", [], None,
      ChannelMetadata(config, formatDate(now)) + ItemElements(Selected(items, config.maxItems), urls, formatDate));
    Element("rss", [Attribute("version", "2.0")], None, [channel])
  }

  /**
   * build, up to serialisation: the clock reading and the date formatter are
   * parameters.
   */
  method Build(config: FeedConfig, items: seq<NormalizedItem>, sourceUrls: Option<map<string, string>>,
               now: int, formatDate: int -> string) returns (rss: Element)
    ensures rss == FeedTree(config, items, sourceUrls, now, formatDate)
  {
    var urls := if sourceUrls.Some? then sourceUrls.value else map[];
    var sortedItems := SortNewestFirst(items);
    var limitedItems := Truncate(sortedItems, config.maxItems);
    var channelChildren := ChannelMetadata(config, formatDate(now));
    for i := 0 to |limitedItems|
      invariant channelChildren == ChannelMetadata(config, formatDate(now)) + ItemElements(limitedItems[..i], urls, formatDate)
    {
      assert limitedItems[..i + 1][..i] == limitedItems[..i];
      channelChildren := channelChildren + [ItemElement(limitedItems[i], urls, formatDate)];
    }
    assert limitedItems[..|limitedItems|] == limitedItems;
    var channel := Element("channel", [], None, channelChildren);
    rss := Element("rss", [Attribute("version", "2.0")], None, [channel]);
  }

  /** The document text: the XML declaration, a newline, then the serialised tree. */
  function Serialize(rss: Element, toXml: Element -> string): (xml: string)
    ensures |xml| > |XmlDeclaration| && xml[..|XmlDeclaration|] == XmlDeclaration && xml[|XmlDeclaration|] == '\n'
  {
    XmlDeclaration + "\n" + toXml(rss)
  }

  // Properties of the kept items.

  /** The kept items are ordered newest first. */
  lemma SelectedNewestFirst(items: seq<NormalizedItem>, maxItems: int)
    ensures NewestFirst(Selected(items, maxItems))
  {
    SortIsNewestFirst(items);
  }

  /** Among items published at the same instant, the kept ones are the first of them in input order. */
  lemma SelectedStable(items: seq<NormalizedItem>, maxItems: int, t: int)
    ensures PublishedAt(Selected(items, maxItems), t) <= PublishedAt(items, t)
  {
    var sorted := SortNewestFirst(items);
    SortIsStable(items, t);
    PublishedAtPrefix(sorted, |Selected(items, maxItems)|, t);
  }

  /** The feed holds min(|items|, max_items) items, and every one of them is an input item. */
  lemma SelectedCount(items: seq<NormalizedItem>, maxItems: int)
    ensures 0 <= maxItems ==> |Selected(items, maxItems)| == Min(|items|, maxItems)
    ensures multiset(Selected(items, maxItems)) <= multiset(items)
  {
    var sorted := SortNewestFirst(items);
    var kept := Selected(items, maxItems);
    assert sorted == kept + sorted[|kept|..];
    assert multiset(sorted) == multiset(kept) + multiset(sorted[|kept|..]);
  }

  /** No dropped item is newer than a kept one. */
  lemma SelectedKeepsNewest(items: seq<NormalizedItem>, maxItems: int)
    ensures var kept := Selected(items, maxItems);
      forall x, y :: x in kept && y in multiset(items) - multiset(kept) ==> x.publishedAt >= y.publishedAt
  {
    var sorted := SortNewestFirst(items);
    var kept := Selected(items, maxItems);
    var dropped := sorted[|kept|..];
    assert sorted == kept + dropped;
    assert multiset(items) - multiset(kept) == multiset(dropped);
    SortIsNewestFirst(items);
    forall x, y | x in kept && y in multiset(items) - multiset(kept)
      ensures x.publishedAt >= y.publishedAt
    {
      var i :| 0 <= i < |kept| && kept[i] == x;
      assert y in dropped;
      var j :| 0 <= j < |dropped| && dropped[j] == y;
      assert sorted[i] == x && sorted[|kept| + j] == y;
    }
  }

  /**
   * The dated example: items of the 15th, 14th and 16th come out 16th, 15th,
   * 14th, and a limit of two drops the 14th.
   */
  lemma SelectedExample(a: NormalizedItem, b: NormalizedItem, c: NormalizedItem)
    requires b.publishedAt < a.publishedAt < c.publishedAt
    ensures Selected([a, b, c], 10) == [c, a, b]
    ensures Selected([a, b, c], 2) == [c, a]
  {
    assert [a, b, c][1..] == [b, c];
    assert [b, c][1..] == [c];
    assert [c][1..] == [];
    assert SortNewestFirst([c]) == [c];
    assert Insert(b, [c]) == [c, b] by {
      assert [c][1..] == [];
    }
    assert SortNewestFirst([b, c]) == [c, b];
    assert Insert(a, [c, b]) == [c, a, b] by {
      assert [c, b][1..] == [b];
    }
    assert SortNewestFirst([a, b, c]) == [c, a, b];
  }

  // Properties of the tree.

  /** The root and the channel metadata: copied verbatim, in a fixed order, whatever the items. */
  lemma FeedChannel(config: FeedConfig, items: seq<NormalizedItem>, sourceUrls: Option<map<string, string>>,
                    now: int, formatDate: int -> string)
    ensures var rss := FeedTree(config, items, sourceUrls, now, formatDate);
      && rss.tag == "rss"
      && GetAttribute(rss.attributes, "version") == Some("2.0")
      && |rss.children| == 1
      && var channel := rss.children[0];
      && channel.tag == "channel"
      && |channel.children| >= 5
      && channel.children[0].tag == "title" && channel.children[1].tag == "link"
      && channel.children[2].tag == "description" && channel.children[3].tag == "language"
      && channel.children[4].tag == "lastBuildDate"
      && FindText(channel, "title") == Some(config.title)
      && FindText(channel, "link") == Some(config.link)
      && FindText(channel, "description") == Some(config.description)
      && FindText(channel, "language") == Some(config.language)
      && FindText(channel, "lastBuildDate") == Some(formatDate(now))
  {
    var rss := FeedTree(config, items, sourceUrls, now, formatDate);
    var children := rss.children[0].children;
    FindChildAt(children, 0, "title");
    FindChildAt(children, 1, "link");
    FindChildAt(children, 2, "description");
    FindChildAt(children, 3, "language");
    FindChildAt(children, 4, "lastBuildDate");
  }

  /** The channel's item elements are those of the kept items, in order. */
  lemma FeedItems(config: FeedConfig, items: seq<NormalizedItem>, sourceUrls: Option<map<string, string>>,
                  now: int, formatDate: int -> string)
    ensures var channel := FeedTree(config, items, sourceUrls, now, formatDate).children[0];
      FindAll(channel.children, "item") == ItemElements(Selected(items, config.maxItems), sourceUrls.GetOr(map[]), formatDate)
  {
    var urls := sourceUrls.GetOr(map[]);
    var metadata := ChannelMetadata(config, formatDate(now));
    var elements := ItemElements(Selected(items, config.maxItems), urls, formatDate);
    FindAllAppend(metadata, elements, "item");
    FindAllUniform(metadata, "item");
    FindAllUniform(elements, "item");
  }

  /** The number of item elements is min(|items|, max_items); no items give an empty channel. */
  lemma FeedItemCount(config: FeedConfig, items: seq<NormalizedItem>, sourceUrls: Option<map<string, string>>,
                      now: int, formatDate: int -> string)
    ensures var channel := FeedTree(config, items, sourceUrls, now, formatDate).children[0];
      && (0 <= config.maxItems ==> |FindAll(channel.children, "item")| == Min(|items|, config.maxItems))
      && (items == [] ==> FindAll(channel.children, "item") == [])
  {
    FeedItems(config, items, sourceUrls, now, formatDate);
    SelectedCount(items, config.maxItems);
  }

  /** An item element's title, link and date; its guid holds the same URL as the link and is a permalink. */
  lemma ItemGuidIsLink(item: NormalizedItem, urls: map<string, string>, formatDate: int -> string)
    ensures var e := ItemElement(item, urls, formatDate);
      && e.tag == "item"
      && FindText(e, "title") == Some(item.title)
      && FindText(e, "link") == Some(item.url)
      && FindText(e, "guid") == Some(item.url)
      && FindChild(e.children, "guid").Some?
      && GetAttribute(FindChild(e.children, "guid").value.attributes, "isPermaLink") == Some("true")
      && FindText(e, "pubDate") == Some(formatDate(item.publishedAt))
  {
    var children := ItemElement(item, urls, formatDate).children;
    FindChildAt(children, 0, "title");
    FindChildAt(children, 1, "link");
    FindChildAt(children, 3, "pubDate");
    FindChildAt(children, 4, "guid");
  }

  /** An item element's description is the item's own when non-empty, else the source's display name. */
  lemma ItemDescription(item: NormalizedItem, urls: map<string, string>, formatDate: int -> string)
    ensures var e := ItemElement(item, urls, formatDate);
      && (Truthy(item.description) ==> FindText(e, "description") == item.description)
      && (!Truthy(item.description) ==> FindText(e, "description") == Some(item.sourceDisplayName))
  {
    FindChildAt(ItemElement(item, urls, formatDate).children, 2, "description");
  }

  /**
   * An item element has a source element exactly when the URL map gives the
   * item's source a non-empty URL; it then carries that URL and the display name.
   */
  /**
   * When every item's source id maps to a non-empty URL, every item element
   * of the channel carries a source element.
   */
  lemma EveryItemAttributed(config: FeedConfig, items: seq<NormalizedItem>, urls: map<string, string>,
                            now: int, formatDate: int -> string)
    requires forall x :: x in items ==> x.sourceId in urls && urls[x.sourceId] != ""
    ensures var channel := FeedTree(config, items, Some(urls), now, formatDate).children[0];
      forall e :: e in FindAll(channel.children, "item") ==> FindChild(e.children, "source").Some?
  {
    FeedItems(config, items, Some(urls), now, formatDate);
    var kept := Selected(items, config.maxItems);
    SelectedCount(items, config.maxItems);
    var elements := ItemElements(kept, urls, formatDate);
    forall e | e in elements
      ensures FindChild(e.children, "source").Some?
    {
      var k :| 0 <= k < |elements| && elements[k] == e;
      assert kept[k] in multiset(items);
      ItemSource(kept[k], urls, formatDate);
    }
  }

  lemma ItemSource(item: NormalizedItem, urls: map<string, string>, formatDate: int -> string)
    ensures var e := ItemElement(item, urls, formatDate);
      && (FindChild(e.children, "source").Some? <==> item.sourceId in urls && urls[item.sourceId] != "")
      && (FindChild(e.children, "source").Some? ==>
            GetAttribute(FindChild(e.children, "source").value.attributes, "url") == Some(urls[item.sourceId])
            && FindText(e, "source") == Some(item.sourceDisplayName))
  {
    var children := ItemElement(item, urls, formatDate).children;
    if SourceUrlOf(urls, item.sourceId) != "" {
      FindChildAt(children, 5, "source");
    } else {
      assert forall c :: c in children ==> c.tag != "source";
      FindChildNone(children, "source");
    }
  }
}
