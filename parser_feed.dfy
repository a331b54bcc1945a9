/** parser/feed.go: the parser package's own `Feed` and `Entry`, the
    latest-modification and update-frequency rules, the plain-text summary
    and `UnmarshalStream`, which also stamps every entry with the feed's
    retrieval time. `parseTime`, `substr` and `charsetReader` are the same
    text as in rss/feed.go and are the functions of `RssFeed`. */
module ParserFeed {
  import opened Wrappers
  import opened RssFeed

  datatype Entry = Entry(id: string, guid: string, author: string, title: string, wwwURL: string, content: string,
                         summary: string, published: Time, source: string, updated: Time, retrieved: Time,
                         properties: seq<string>)

  datatype Feed = Feed(url: string, title: string, description: string, updated: Time, wwwURL: string,
                       format: string, retrieved: Time, hourlyUpdateFrequency: real, entries: seq<Entry>)

  // ---------------------------------------------------------------------
  // Modification times

  /** `Entry.LatestModification`: the later of `Updated` and `Published`,
      `Published` on a tie. */
  function LatestModification(entry: Entry): (t: Time)
    ensures t >= entry.published && t >= entry.updated
    ensures t == entry.published || t == entry.updated
    ensures entry.updated == entry.published ==> t == entry.published
  {
    Later(entry.published, entry.updated)
  }

  /** The latest modification of any entry, starting from the zero time. */
  function MostRecent(entries: seq<Entry>): Time {
    if entries == [] then ZeroTime
    else
      var before := MostRecent(entries[..|entries| - 1]);
      var latest := LatestModification(entries[|entries| - 1]);
      if latest > before then latest else before
  }

  /** `MostRecent` is no earlier than the zero time and any entry's
      modification, and is the zero time or one of them. */
  lemma {:induction false} MostRecentIsMaximum(entries: seq<Entry>)
    ensures MostRecent(entries) >= ZeroTime
    ensures forall k :: 0 <= k < |entries| ==> MostRecent(entries) >= LatestModification(entries[k])
    ensures MostRecent(entries) == ZeroTime ||
            exists k :: 0 <= k < |entries| && MostRecent(entries) == LatestModification(entries[k])
  {
    if entries != [] {
      var init := entries[..|entries| - 1];
      MostRecentIsMaximum(init);
      assert forall k :: 0 <= k < |init| ==> init[k] == entries[k];
    }
  }

  /** `Feed.LatestEntryModification`. */
  method LatestEntryModification(feed: Feed) returns (mostRecent: Time)
    ensures mostRecent == MostRecent(feed.entries)
  {
    mostRecent := ZeroTime;
    var i := 0;
    while i < |feed.entries|
      invariant 0 <= i <= |feed.entries|
      invariant mostRecent == MostRecent(feed.entries[..i])
    {
      assert feed.entries[..i + 1][..i] == feed.entries[..i];
      var latestModification := LatestModification(feed.entries[i]);
      if latestModification > mostRecent {
        mostRecent := latestModification;
      }
      i := i + 1;
    }
    assert feed.entries[..i] == feed.entries;
  }

  /** `Feed.DurationBetweenUpdates`, in minutes, with the average gap in
      whole hours as a parameter (the source computes it in floating
      point): an explicit frequency is truncated and not clamped,
      otherwise the result lies within 30 minutes and a day. */
  function DurationBetweenUpdates(feed: Feed, averageHours: int): (minutes: int)
    ensures feed.hourlyUpdateFrequency != 0.0 ==> minutes == Truncate(feed.hourlyUpdateFrequency) * 60
    ensures feed.hourlyUpdateFrequency == 0.0 ==> MinFrequency <= minutes <= MaxFrequency
    ensures feed.hourlyUpdateFrequency == 0.0 && |feed.entries| < 2 ==> minutes == MinFrequency
    ensures feed.hourlyUpdateFrequency == 0.0 && |feed.entries| >= 2 &&
              MinFrequency <= averageHours * 60 <= MaxFrequency ==>
              minutes == averageHours * 60
  {
    if feed.hourlyUpdateFrequency != 0.0 then
      Truncate(feed.hourlyUpdateFrequency) * 60
    else
      Clamp(if |feed.entries| > 1 then averageHours * 60 else 0)
  }

  // ---------------------------------------------------------------------
  // PlainTextSummary

  /** `unicode.IsSpace`. */
  predicate IsSpace(c: char) {
    c == ' ' || c == '\t' || c == '\n' || c == '\r' || c == '\U{000B}' || c == '\U{000C}' ||
    c == '\U{0085}' || c == '\U{00A0}' || c == '\U{1680}' || '\U{2000}' <= c <= '\U{200A}' ||
    c == '\U{2028}' || c == '\U{2029}' || c == '\U{202F}' || c == '\U{205F}' || c == '\U{3000}'
  }

  function TrimLeft(s: string): (r: string)
    ensures |r| <= |s| && r == s[|s| - |r|..]
    ensures forall k :: 0 <= k < |s| - |r| ==> IsSpace(s[k])
    ensures r == [] || !IsSpace(r[0])
  {
    if s != [] && IsSpace(s[0]) then TrimLeft(s[1..]) else s
  }

  function TrimRight(s: string): (r: string)
    ensures |r| <= |s| && r == s[..|r|]
    ensures forall k :: |r| <= k < |s| ==> IsSpace(s[k])
    ensures r == [] || !IsSpace(r[|r| - 1])
  {
    if s != [] && IsSpace(s[|s| - 1]) then TrimRight(s[..|s| - 1]) else s
  }

  /** `strings.TrimSpace`: `s` without its leading and trailing white
      space, which is all that is cut. */
  function TrimSpace(s: string): (r: string)
    ensures var start := |s| - |TrimLeft(s)|;
            start + |r| <= |s| && r == s[start..start + |r|]
    ensures forall k :: 0 <= k < |s| - |TrimLeft(s)| ==> IsSpace(s[k])
    ensures forall k :: |s| - |TrimLeft(s)| + |r| <= k < |s| ==> IsSpace(s[k])
    ensures r == [] || (!IsSpace(r[0]) && !IsSpace(r[|r| - 1]))
  {
    TrimSpaceCuts(s);
    TrimRight(TrimLeft(s))
  }

  /** Trimming the left and then the right cuts a run of white space at
      either end and keeps the middle of `s`. */
  lemma TrimSpaceCuts(s: string)
    ensures var left := TrimLeft(s);
            var r := TrimRight(left);
            var start := |s| - |left|;
            start + |r| <= |s| && r == s[start..start + |r|] &&
            forall k :: start + |r| <= k < |s| ==> IsSpace(s[k])
  {
    var left := TrimLeft(s);
    var r := TrimRight(left);
    var start := |s| - |left|;
    assert left == s[start..];
    assert r == left[..|r|];
    forall k | start + |r| <= k < |s|
      ensures IsSpace(s[k])
    {
      assert s[k] == left[k - start];
    }
  }

  const SummaryLength := 512

  /** `Entry.PlainTextSummary`: the first 512 characters of the trimmed
      content. */
  function PlainTextSummary(entry: Entry): (summary: string)
    ensures |summary| <= SummaryLength && summary <= TrimSpace(entry.content)
    ensures |summary| == if |TrimSpace(entry.content)| < SummaryLength then |TrimSpace(entry.content)|
                         else SummaryLength
  {
    Substr(TrimSpace(entry.content), 0, SummaryLength)
  }

  // ---------------------------------------------------------------------
  // UnmarshalStream

  /** Every entry with its `Retrieved` set to `retrieved`. */
  function Stamped(entries: seq<Entry>, retrieved: Time): (r: seq<Entry>)
    ensures |r| == |entries|
    ensures forall k :: 0 <= k < |r| ==> r[k] == entries[k].(retrieved := retrieved)
  {
    seq(|entries|, k requires 0 <= k < |entries| => entries[k].(retrieved := retrieved))
  }

  /** What the decoder makes of the stream, and what the chosen format's
      `Marshal` returns; the parser package's format files are not part of
      this model, so both are parameters. */
  datatype Decoded = Decoded(root: Result<XmlName>, decodeError: FeedFormat -> Option<string>,
                             marshaled: FeedFormat -> Outcome<Feed>)

  /** The specification of `UnmarshalStream`. */
  function StreamOf(url: string, readError: Option<string>, decoded: Decoded, now: Time): Result<Feed> {
    if readError.Some? then Err(readError.value)
    else if decoded.root.Err? then Err(decoded.root.message)
    else match FormatOf(decoded.root.value)
      case Err(message) => Err(message)
      case Ok(format) =>
        if decoded.decodeError(format).Some? then Err(decoded.decodeError(format).value)
        else
          var marshaled := decoded.marshaled(format);
          if marshaled.error.Some? then Err(marshaled.error.value)
          else Ok(marshaled.value.(url := url, retrieved := now, entries := Stamped(marshaled.value.entries, now)))
  }

  /** The error precedence of `UnmarshalStream`, and the returned feed:
      the marshalled feed with the URL, the retrieval time, and every
      entry retrieved at the feed's time. */
  lemma StreamRules(url: string, readError: Option<string>, decoded: Decoded, now: Time)
    ensures var r := StreamOf(url, readError, decoded, now);
            readError.Some? ==> r == Err(readError.value)
    ensures var r := StreamOf(url, readError, decoded, now);
            readError.None? && decoded.root.Err? ==> r == Err(decoded.root.message)
    ensures var r := StreamOf(url, readError, decoded, now);
            readError.None? && decoded.root.Ok? && FormatOf(decoded.root.value).Err? ==>
              r == Err(FormatOf(decoded.root.value).message)
    ensures var r := StreamOf(url, readError, decoded, now);
            readError.None? && decoded.root.Ok? && FormatOf(decoded.root.value).Ok? &&
            decoded.decodeError(FormatOf(decoded.root.value).value).Some? ==>
              r == Err(decoded.decodeError(FormatOf(decoded.root.value).value).value)
    ensures var r := StreamOf(url, readError, decoded, now);
            readError.None? && decoded.root.Ok? && FormatOf(decoded.root.value).Ok? &&
            decoded.decodeError(FormatOf(decoded.root.value).value).None? &&
            decoded.marshaled(FormatOf(decoded.root.value).value).error.Some? ==>
              r == Err(decoded.marshaled(FormatOf(decoded.root.value).value).error.value)
    ensures var r := StreamOf(url, readError, decoded, now);
            r.Ok? ==> readError.None? && decoded.root.Ok? && FormatOf(decoded.root.value).Ok? &&
                      var marshaled := decoded.marshaled(FormatOf(decoded.root.value).value);
                      marshaled.error.None? && r.value.url == url && r.value.retrieved == now &&
                      |r.value.entries| == |marshaled.value.entries| &&
                      forall k :: 0 <= k < |r.value.entries| ==> r.value.entries[k].retrieved == r.value.retrieved
  {
  }

  /** `UnmarshalStream`. */
  method UnmarshalStream(url: string, readError: Option<string>, decoded: Decoded, now: Time)
    returns (r: Result<Feed>)
    ensures r == StreamOf(url, readError, decoded, now)
  {
    if readError.Some? {
      return Err(readError.value);
    }
    if decoded.root.Err? {
      return Err(decoded.root.message);
    }

    var format := FormatOf(decoded.root.value);
    if format.Err? {
      return Err(format.message);
    }

    var decodeError := decoded.decodeError(format.value);
    if decodeError.Some? {
      return Err(decodeError.value);
    }

    var marshaled := decoded.marshaled(format.value);
    var feed := marshaled.value.(url := url, retrieved := now);

    var entries := feed.entries;
    var i := 0;
    while i < |entries|
      invariant 0 <= i <= |entries| == |feed.entries|
      invariant entries[..i] == Stamped(feed.entries[..i], feed.retrieved)
      invariant entries[i..] == feed.entries[i..]
    {
      assert entries[i] == feed.entries[i];
      entries := entries[i := entries[i].(retrieved := feed.retrieved)];
      assert entries[..i + 1] == Stamped(feed.entries[..i + 1], feed.retrieved);
      i := i + 1;
    }
    assert entries == entries[..i] && feed.entries == feed.entries[..i];
    feed := feed.(entries := entries);

    if marshaled.error.Some? {
      return Err(marshaled.error.value);
    }
    return Ok(feed);
  }
}
