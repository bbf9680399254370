/**
 * Date pre-processing shared by both fetchers: the "Z" rewrite, the ISO 8601
 * parse and the UTC default for a value without a zone.
 */
module Dates {
  import opened Wrappers
  import opened Entries

  /**
   * What datetime.fromisoformat returns: the wall-clock reading in seconds and
   * the UTC offset in seconds, None for a naive value.
   */
  datatype IsoDateTime = IsoDateTime(wallClock: int, utcOffset: Option<int>)

  /**
   * The date library, as partial functions: ISO 8601 parsing (None where the
   * library raises) and the conversion of a structured time to an instant.
   */
  datatype DateLib = DateLib(fromIsoFormat: string -> Option<IsoDateTime>, mktime: StructTime -> int)

  const UtcOffsetText: string := "+00:00"

  /** s.replace("Z", "+00:00"): every 'Z' becomes an explicit zero offset. */
  function ReplaceZ(s: string): (r: string)
    ensures 'Z' !in r
    ensures 'Z' !in s ==> r == s
    ensures |r| >= |s|
  {
    if s == [] then []
    else (if s[0] == 'Z' then UtcOffsetText else [s[0]]) + ReplaceZ(s[1..])
  }

  lemma {:induction false} ReplaceZAppend(a: string, b: string)
    ensures ReplaceZ(a + b) == ReplaceZ(a) + ReplaceZ(b)
  {
    if a == [] {
      assert a + b == b;
    } else {
      assert (a + b)[0] == a[0];
      assert (a + b)[1..] == a[1..] + b;
      ReplaceZAppend(a[1..], b);
    }
  }

  /** The instant an ISO value denotes, once a naive value has been given UTC. */
  function ToInstant(d: IsoDateTime): int {
    d.wallClock - d.utcOffset.GetOr(0)
  }

  /**
   * The string branch of both date parsers: rewrite "Z", parse, default a
   * naive result to UTC; a parse failure gives None rather than an error.
   */
  function ParseIsoUtc(s: string, lib: DateLib): (r: Option<int>)
    ensures lib.fromIsoFormat(ReplaceZ(s)).None? ==> r.None?
    ensures forall w :: lib.fromIsoFormat(ReplaceZ(s)) == Some(IsoDateTime(w, None)) ==> r == Some(w)
    ensures forall w, off :: lib.fromIsoFormat(ReplaceZ(s)) == Some(IsoDateTime(w, Some(off))) ==> r == Some(w - off)
  {
    match lib.fromIsoFormat(ReplaceZ(s))
    case None => None
    case Some(d) => Some(ToInstant(d))
  }

  /** A trailing "Z" is read exactly as an explicit "+00:00" offset. */
  lemma {:induction false} TrailingZIsUtc(s: string, lib: DateLib)
    requires 'Z' !in s
    ensures ParseIsoUtc(s + "Z", lib) == ParseIsoUtc(s + UtcOffsetText, lib)
  {
    ReplaceZAppend(s, "Z");
    ReplaceZAppend(s, UtcOffsetText);
    assert ReplaceZ("Z") == UtcOffsetText;
    assert ReplaceZ(s + "Z") == s + UtcOffsetText;
  }

  /** The example of a YouTube publication time: the parser sees an explicit zero offset. */
  lemma ReplaceZExample(date: string)
    requires date == "2024-01-15T10:30:00"
    ensures ReplaceZ(date + "Z") == date + "+00:00"
  {
    assert 'Z' !in date;
    ReplaceZAppend(date, "Z");
    assert ReplaceZ("Z") == UtcOffsetText;
  }
}
