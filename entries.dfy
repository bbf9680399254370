/**
 * A parsed feed entry as the feed-parsing library hands it over: every field
 * may be missing.  The library itself is not part of this model.
 */
module Entries {
  import opened Wrappers

  /** A broken-down time as delivered in the entry's structured date fields. */
  datatype StructTime = StructTime(year: int, month: int, day: int, hour: int, minute: int, second: int)

  datatype Entry = Entry(
    title: Option<string>,
    link: Option<string>,
    summary: Option<string>,
    description: Option<string>,
    published: Option<string>,
    updated: Option<string>,
    publishedParsed: Option<StructTime>,
    updatedParsed: Option<StructTime>)

  /** The outcome of one HTTP request: the entries of the parsed feed, or a request error. */
  datatype Response = Feed(entries: seq<Entry>) | HttpError
}
