/** objects.go: the stored form of a feed, built from a parsed feed by
    `NewFeed`, which copies the feed's fields and projects every parsed
    entry onto an `Entry` and an `EntryMeta`. The parsed feed is the
    `Feed` of parser/feed.go; objects.go reads its entries through a field
    named `Entries`, which parser/feed.go calls `Entry`, and here both are
    its `entries`. */
module FraeObjects {
  import opened Wrappers
  import RssFeed
  import ParserFeed

  datatype Entry = Entry(guid: string, author: string, title: string, link: string, published: RssFeed.Time,
                         updated: RssFeed.Time, content: string, summary: string)

  /** `EntryMeta` without its datastore key, which `NewFeed` leaves nil. */
  datatype EntryMeta = EntryMeta(published: RssFeed.Time, retrieved: RssFeed.Time)

  datatype Feed = Feed(url: string, title: string, description: string, updated: RssFeed.Time, link: string,
                       format: string, retrieved: RssFeed.Time, hourlyUpdateFrequency: real,
                       entryMetas: seq<EntryMeta>, entries: seq<Entry>)

  /** The stored entry of a parsed one: the link is its `WWWURL` and the
      summary is left empty. */
  function EntryOf(parsed: ParserFeed.Entry): (e: Entry)
    ensures e.guid == parsed.guid && e.author == parsed.author && e.title == parsed.title
    ensures e.link == parsed.wwwURL && e.content == parsed.content && e.summary == ""
    ensures e.published == parsed.published && e.updated == parsed.updated
  {
    Entry(parsed.guid, parsed.author, parsed.title, parsed.wwwURL, parsed.published, parsed.updated, parsed.content, "")
  }

  /** The metadata of a parsed entry: its publication time and the feed's
      retrieval time. */
  function MetaOf(parsed: ParserFeed.Entry, retrieved: RssFeed.Time): (m: EntryMeta)
    ensures m.published == parsed.published && m.retrieved == retrieved
  {
    EntryMeta(parsed.published, retrieved)
  }

  /** `NewFeed`: it never fails. */
  method NewFeed(parsedFeed: ParserFeed.Feed) returns (feed: Feed, err: Option<string>)
    ensures err.None?
    ensures feed.url == parsedFeed.url && feed.title == parsedFeed.title && feed.description == parsedFeed.description
    ensures feed.updated == parsedFeed.updated && feed.link == parsedFeed.wwwURL && feed.format == parsedFeed.format
    ensures feed.retrieved == parsedFeed.retrieved && feed.hourlyUpdateFrequency == parsedFeed.hourlyUpdateFrequency
    ensures |feed.entries| == |feed.entryMetas| == |parsedFeed.entries|
    ensures forall i :: 0 <= i < |parsedFeed.entries| ==>
                          feed.entries[i] == EntryOf(parsedFeed.entries[i]) &&
                          feed.entryMetas[i] == MetaOf(parsedFeed.entries[i], parsedFeed.retrieved)
  {
    var n := |parsedFeed.entries|;
    var entries := new Entry[n];
    var entryMetas := new EntryMeta[n];

    var i := 0;
    while i < n
      invariant 0 <= i <= n
      invariant forall k :: 0 <= k < i ==> entries[k] == EntryOf(parsedFeed.entries[k])
      invariant forall k :: 0 <= k < i ==> entryMetas[k] == MetaOf(parsedFeed.entries[k], parsedFeed.retrieved)
    {
      var parsedEntry := parsedFeed.entries[i];
      entries[i] := Entry(parsedEntry.guid, parsedEntry.author, parsedEntry.title, parsedEntry.wwwURL,
                          parsedEntry.published, parsedEntry.updated, parsedEntry.content, "");
      entryMetas[i] := EntryMeta(parsedEntry.published, parsedFeed.retrieved);
      i := i + 1;
    }

    feed := Feed(parsedFeed.url, parsedFeed.title, parsedFeed.description, parsedFeed.updated, parsedFeed.wwwURL,
                 parsedFeed.format, parsedFeed.retrieved, parsedFeed.hourlyUpdateFrequency, entryMetas[..], entries[..]);
    err := None;
  }
}
