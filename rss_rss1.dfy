/** rss/rss1.go: an already decoded RSS 1.0 (RDF) document mapped to the
    common `Feed`. The web link is the last channel link in the RSS 1.0
    namespace; entries never get an `Updated` time. `rssLink`, which
    rss/rss2.go uses too, is declared here as in the source. */
module RssRss1 {
  import opened Wrappers
  import opened RssFeed

  const Rss1TimeFormats: seq<string> := ["2006-01-02T15:04-07:00", "2006-01-02T15:04:05-07:00", "2006-01-02"]

  const Rss1Namespace := "http://purl.org/rss/1.0/"

  datatype RssLink = RssLink(xmlName: XmlName, content: string, linkType: string, rel: string, href: string)

  datatype Rss1Entry = Rss1Entry(id: string, published: string, entryTitle: string, link: string, author: string,
                                 encodedContent: string, content: string)

  datatype Rss1Feed = Rss1Feed(title: string, description: string, updated: string, links: seq<RssLink>,
                               entries: seq<Rss1Entry>)

  // ---------------------------------------------------------------------
  // Specification

  /** The text of the last link in the RSS 1.0 namespace. */
  function WwwLink(links: seq<RssLink>): string {
    if links == [] then ""
    else if links[|links| - 1].xmlName.space == Rss1Namespace then links[|links| - 1].content
    else WwwLink(links[..|links| - 1])
  }

  lemma {:induction false} WwwLinkIsLast(links: seq<RssLink>)
    ensures (forall k :: 0 <= k < |links| ==> links[k].xmlName.space != Rss1Namespace) ==> WwwLink(links) == ""
    ensures forall k :: 0 <= k < |links| && links[k].xmlName.space == Rss1Namespace &&
                        (forall j :: k < j < |links| ==> links[j].xmlName.space != Rss1Namespace) ==>
                        WwwLink(links) == links[k].content
  {
    if links != [] {
      var init := links[..|links| - 1];
      WwwLinkIsLast(init);
      assert forall k :: 0 <= k < |init| ==> init[k] == links[k];
    }
  }

  /** `rss1Entry.Marshal`. */
  function EntryOf(native: Rss1Entry, parse: TimeParser): Outcome<Entry> {
    var content := if native.encodedContent == "" then native.content else native.encodedContent;
    var published := if native.published != "" then ParseTime(Rss1TimeFormats, native.published, parse)
                     else Outcome(ZeroTime, None);
    Outcome(Entry(native.id, native.author, native.entryTitle, native.link, content, published.value, ZeroTime),
            published.error)
  }

  /** Encoded content is preferred over the description; `Updated` stays
      zero; only a present `published` is parsed, and its error is the
      entry's. */
  lemma EntryRules(native: Rss1Entry, parse: TimeParser)
    ensures var e := EntryOf(native, parse).value;
            e.guid == native.id && e.author == native.author && e.title == native.entryTitle &&
            e.wwwURL == native.link && e.updated == ZeroTime
    ensures var e := EntryOf(native, parse).value;
            (native.encodedContent != "" ==> e.content == native.encodedContent) &&
            (native.encodedContent == "" ==> e.content == native.content)
    ensures native.published == "" ==> EntryOf(native, parse).value.published == ZeroTime &&
                                        EntryOf(native, parse).error.None?
    ensures native.published != "" ==>
              Outcome(EntryOf(native, parse).value.published, EntryOf(native, parse).error) ==
              ParseTime(Rss1TimeFormats, native.published, parse)
  {
  }

  /** The marshalled entries, in order. Each format has its own entry
      loop over its own native entry type, so `EntriesOf`, `EntryErrors`
      and `MarshalEntries` are written once per format, each over that
      format's `EntryOf`. */
  function EntriesOf(natives: seq<Rss1Entry>, parse: TimeParser): (entries: seq<Entry>)
    ensures |entries| == |natives|
  {
    seq(|natives|, i requires 0 <= i < |natives| => EntryOf(natives[i], parse).value)
  }

  function EntryErrors(natives: seq<Rss1Entry>, parse: TimeParser): (errors: seq<Option<string>>)
    ensures |errors| == |natives|
  {
    seq(|natives|, i requires 0 <= i < |natives| => EntryOf(natives[i], parse).error)
  }

  function UpdatedOf(native: Rss1Feed, parse: TimeParser): Outcome<Time> {
    if native.updated != "" then ParseTime(Rss1TimeFormats, native.updated, parse) else Outcome(ZeroTime, None)
  }

  /** `rss1Feed.Marshal`. */
  function FeedOf(native: Rss1Feed, parse: TimeParser): (r: Outcome<Feed>)
    ensures r.value.format == "RSS1" && r.value.title == native.title && r.value.description == native.description
    ensures r.value.updated == UpdatedOf(native, parse).value && r.value.wwwURL == WwwLink(native.links)
    ensures r.value.topic == "" && r.value.hubURL == "" && r.value.hourlyUpdateFrequency == 0.0
    ensures |r.value.entries| == |native.entries|
    ensures forall i :: 0 <= i < |native.entries| ==> r.value.entries[i] == EntryOf(native.entries[i], parse).value
    ensures UpdatedOf(native, parse).error.Some? ==> r.error == UpdatedOf(native, parse).error
    ensures UpdatedOf(native, parse).error.None? ==> r.error == FirstError(EntryErrors(native.entries, parse))
  {
    var updated := UpdatedOf(native, parse);
    var feed := EmptyFeed("RSS1").(title := native.title, description := native.description, updated := updated.value,
                                   wwwURL := WwwLink(native.links), entries := EntriesOf(native.entries, parse));
    Outcome(feed, if updated.error.Some? then updated.error else FirstError(EntryErrors(native.entries, parse)))
  }

  // ---------------------------------------------------------------------
  // The marshalling code

  /** `rss1Feed.Marshal`. */
  method Marshal(native: Rss1Feed, parse: TimeParser) returns (feed: Feed, err: Option<string>)
    ensures Outcome(feed, err) == FeedOf(native, parse)
  {
    var updated := ZeroTime;
    err := None;
    if native.updated != "" {
      var parsed := ParseTime(Rss1TimeFormats, native.updated, parse);
      updated, err := parsed.value, parsed.error;
    }

    var linkUrl := "";
    var i := 0;
    while i < |native.links|
      invariant 0 <= i <= |native.links|
      invariant linkUrl == WwwLink(native.links[..i])
    {
      assert native.links[..i + 1][..i] == native.links[..i];
      if native.links[i].xmlName.space == Rss1Namespace {
        linkUrl := native.links[i].content;
      }
      i := i + 1;
    }
    assert native.links[..i] == native.links;

    feed := EmptyFeed("RSS1").(title := native.title, description := native.description, updated := updated,
                               wwwURL := linkUrl);

    var entries, entryError := MarshalEntries(native.entries, parse);
    if err.None? {
      err := entryError;
    }
    feed := feed.(entries := entries);
  }

  /** The entry loop of `rss1Feed.Marshal`. */
  method MarshalEntries(natives: seq<Rss1Entry>, parse: TimeParser) returns (entries: seq<Entry>, err: Option<string>)
    ensures entries == EntriesOf(natives, parse)
    ensures err == FirstError(EntryErrors(natives, parse))
  {
    var marshaled := new Entry[|natives|];
    ghost var expected := EntriesOf(natives, parse);
    ghost var errors := EntryErrors(natives, parse);
    err := None;
    var i := 0;
    while i < |natives|
      invariant 0 <= i <= |natives| == marshaled.Length
      invariant marshaled[..i] == expected[..i]
      invariant err == FirstError(errors[..i])
    {
      var entry := EntryOf(natives[i], parse);
      marshaled[i] := entry.value;
      assert marshaled[..i + 1] == expected[..i + 1];
      FirstErrorAppend(errors[..i], errors[i]);
      assert errors[..i + 1] == errors[..i] + [errors[i]];
      if entry.error.Some? && err.None? {
        err := entry.error;
      }
      i := i + 1;
    }
    assert errors[..i] == errors;
    assert marshaled[..] == marshaled[..i];
    entries := marshaled[..];
  }
}
