/** rss/atom.go: an already decoded Atom document mapped to the common
    `Feed`. The feed keeps, for each of `alternate`, `self` and `hub`, the
    last link whose first known rel it is; an entry keeps the last
    `alternate` link (or the first link while none is set), falls back to
    the summary for content, and to the other of its two dates. */
module RssAtom {
  import opened Wrappers
  import opened RssFeed

  const AtomTimeFormats: seq<string> := ["2006-01-02T15:04:05Z07:00", "January 2, 2006"]

  /** The rels a feed link may serve. */
  const FeedRels: set<string> := {"alternate", "self", "hub"}

  datatype AtomLink = AtomLink(linkType: string, rel: string, href: string)

  datatype AtomAuthor = AtomAuthor(name: string, uri: string)

  datatype AtomText = AtomText(textType: string, content: string)

  datatype AtomEntry = AtomEntry(id: string, published: string, updated: string, links: seq<AtomLink>,
                                 entryTitle: AtomText, content: AtomText, summary: AtomText, author: AtomAuthor)

  datatype AtomFeed = AtomFeed(id: string, title: string, description: string, updated: string,
                               links: seq<AtomLink>, entries: seq<AtomEntry>)

  // ---------------------------------------------------------------------
  // Specification

  /** The feed field a link sets: its first space-separated rel that is
      `alternate`, `self` or `hub`. */
  predicate Selects(link: AtomLink, rel: string) {
    FirstIn(Split(link.rel, ' '), FeedRels) == Some(rel)
  }

  /** The value the feed's link loop leaves for `rel`: later links
      overwrite earlier ones. */
  function LinkFor(links: seq<AtomLink>, rel: string): string {
    if links == [] then ""
    else if Selects(links[|links| - 1], rel) then links[|links| - 1].href
    else LinkFor(links[..|links| - 1], rel)
  }

  /** With no link that selects `rel` the field stays empty. */
  lemma {:induction false} LinkForNone(links: seq<AtomLink>, rel: string)
    ensures (forall k :: 0 <= k < |links| ==> !Selects(links[k], rel)) ==> LinkFor(links, rel) == ""
  {
    if links != [] {
      var init := links[..|links| - 1];
      LinkForNone(init, rel);
      assert forall k :: 0 <= k < |init| ==> init[k] == links[k];
    }
  }

  /** The last link that selects `rel` gives its href. */
  lemma {:induction false} LinkForIsLast(links: seq<AtomLink>, rel: string, k: nat)
    requires k < |links| && Selects(links[k], rel)
    requires forall j :: k < j < |links| ==> !Selects(links[j], rel)
    ensures LinkFor(links, rel) == links[k].href
  {
    if k < |links| - 1 {
      var init := links[..|links| - 1];
      assert forall j :: 0 <= j < |init| ==> init[j] == links[j];
      LinkForIsLast(init, rel, k);
    }
  }

  lemma LinkForStep(links: seq<AtomLink>, i: nat)
    requires i < |links|
    ensures forall rel :: LinkFor(links[..i + 1], rel) == if Selects(links[i], rel) then links[i].href
                                                         else LinkFor(links[..i], rel)
  {
    assert links[..i + 1][..i] == links[..i];
  }

  /** The entry's link loop: a link is taken while none is set, and an
      `alternate` link is always taken. */
  function EntryLink(links: seq<AtomLink>): string {
    if links == [] then ""
    else
      var before := EntryLink(links[..|links| - 1]);
      var last := links[|links| - 1];
      if before == "" || last.rel == "alternate" then last.href else before
  }

  /** The last `alternate` link wins when its href is non-empty. */
  lemma {:induction false} EntryLinkLastAlternate(links: seq<AtomLink>, k: nat)
    requires k < |links| && links[k].rel == "alternate" && links[k].href != ""
    requires forall j :: k < j < |links| ==> links[j].rel != "alternate"
    ensures EntryLink(links) == links[k].href
  {
    if k < |links| - 1 {
      var init := links[..|links| - 1];
      assert init[k] == links[k];
      EntryLinkLastAlternate(init, k);
    }
  }

  /** Without any `alternate` link the first non-empty href is kept. */
  lemma {:induction false} EntryLinkWithoutAlternate(links: seq<AtomLink>, k: nat)
    requires k < |links| && links[k].href != ""
    requires forall j :: 0 <= j < k ==> links[j].href == ""
    requires forall j :: 0 <= j < |links| ==> links[j].rel != "alternate"
    ensures EntryLink(links) == links[k].href
  {
    var init := links[..|links| - 1];
    if k < |links| - 1 {
      assert init[k] == links[k];
      EntryLinkWithoutAlternate(init, k);
    } else {
      EntryLinkAllEmpty(init);
    }
  }

  /** Links without an href leave the entry with none. */
  lemma {:induction false} EntryLinkAllEmpty(links: seq<AtomLink>)
    requires forall j :: 0 <= j < |links| ==> links[j].href == ""
    ensures EntryLink(links) == ""
  {
    if links != [] {
      EntryLinkAllEmpty(links[..|links| - 1]);
    }
  }

  /** A time element: absent is the zero time without error. */
  function TimeOf(spec: string, parse: TimeParser): (t: Outcome<Time>)
    ensures t == ParseTime(AtomTimeFormats, spec, parse)
    ensures spec == "" ==> t == Outcome(ZeroTime, None)
  {
    if spec != "" then ParseTime(AtomTimeFormats, spec, parse) else Outcome(ZeroTime, None)
  }

  /** `atomEntry.Marshal`. */
  function EntryOf(native: AtomEntry, parse: TimeParser): Outcome<Entry>
  {
    var content := if native.content.content == "" && native.summary.content != "" then native.summary.content
                   else native.content.content;
    var published := TimeOf(native.published, parse);
    var updated := if native.updated != "" then TimeOf(native.updated, parse) else published;
    var publishedTime := if native.updated != "" && published.value == ZeroTime then updated.value
                         else published.value;
    Outcome(Entry(native.id, native.author.name, native.entryTitle.content, EntryLink(native.links), content,
                  publishedTime, updated.value),
            updated.error)
  }

  /** What an entry takes from its native form: id, author, title and
      link; the content, or the summary when the content is empty; and
      its dates, where a present `updated` decides the error and fills a
      zero `published`, and an absent one is `published`. */
  lemma EntryRules(native: AtomEntry, parse: TimeParser)
    ensures var e := EntryOf(native, parse).value;
            e.guid == native.id && e.author == native.author.name && e.title == native.entryTitle.content &&
            e.wwwURL == EntryLink(native.links)
    ensures var e := EntryOf(native, parse).value;
            (native.content.content != "" ==> e.content == native.content.content) &&
            (native.content.content == "" ==> e.content == native.summary.content)
    ensures var r, published := EntryOf(native, parse), TimeOf(native.published, parse);
            native.updated == "" ==>
              r.value.published == published.value && r.value.updated == published.value && r.error == published.error
    ensures var r, published, updated := EntryOf(native, parse), TimeOf(native.published, parse),
                                         TimeOf(native.updated, parse);
            native.updated != "" ==>
              r.value.updated == updated.value && r.error == updated.error &&
              r.value.published == (if published.value == ZeroTime then updated.value else published.value)
  {
  }

  /** A marshalled entry has a zero `Published` only if its `Updated` is
      zero too. */
  lemma PublishedZeroOnlyIfUpdatedZero(native: AtomEntry, parse: TimeParser)
    ensures EntryOf(native, parse).value.published == ZeroTime ==> EntryOf(native, parse).value.updated == ZeroTime
  {
  }

  /** A parse error in `published` is lost when `updated` parses. */
  lemma PublishedErrorOverwritten(native: AtomEntry, parse: TimeParser)
    requires native.published != "" && native.updated != ""
    requires TimeOf(native.updated, parse).error.None?
    ensures EntryOf(native, parse).error.None?
  {
  }

  /** The marshalled entries, in order. Each format has its own entry
      loop over its own native entry type, so `EntriesOf`, `EntryErrors`
      and `MarshalEntries` are written once per format, each over that
      format's `EntryOf`. */
  function EntriesOf(natives: seq<AtomEntry>, parse: TimeParser): (entries: seq<Entry>)
    ensures |entries| == |natives|
  {
    seq(|natives|, i requires 0 <= i < |natives| => EntryOf(natives[i], parse).value)
  }

  /** The entries' errors, in order. */
  function EntryErrors(natives: seq<AtomEntry>, parse: TimeParser): (errors: seq<Option<string>>)
    ensures |errors| == |natives|
  {
    seq(|natives|, i requires 0 <= i < |natives| => EntryOf(natives[i], parse).error)
  }

  /** `atomFeed.Marshal`. */
  function FeedOf(native: AtomFeed, parse: TimeParser): (r: Outcome<Feed>)
    ensures r.value.format == "Atom" && r.value.title == native.title && r.value.description == native.description
    ensures r.value.updated == TimeOf(native.updated, parse).value
    ensures r.value.wwwURL == LinkFor(native.links, "alternate") && r.value.topic == LinkFor(native.links, "self") &&
            r.value.hubURL == LinkFor(native.links, "hub")
    ensures |r.value.entries| == |native.entries|
    ensures forall i :: 0 <= i < |native.entries| ==> r.value.entries[i] == EntryOf(native.entries[i], parse).value
    ensures TimeOf(native.updated, parse).error.Some? ==> r.error == TimeOf(native.updated, parse).error
    ensures TimeOf(native.updated, parse).error.None? ==> r.error == FirstError(EntryErrors(native.entries, parse))
  {
    var updated := TimeOf(native.updated, parse);
    var entries := EntriesOf(native.entries, parse);
    var feed := EmptyFeed("Atom").(title := native.title, description := native.description, updated := updated.value,
                                   wwwURL := LinkFor(native.links, "alternate"), topic := LinkFor(native.links, "self"),
                                   hubURL := LinkFor(native.links, "hub"), entries := entries);
    Outcome(feed, if updated.error.Some? then updated.error else FirstError(EntryErrors(native.entries, parse)))
  }

  // ---------------------------------------------------------------------
  // The marshalling code

  /** The inner loop of the feed's link loop: the first known rel of the
      link decides which field takes its href. */
  method ApplyFeedLink(link: AtomLink, linkUrl: string, topic: string, hubURL: string)
    returns (linkUrl': string, topic': string, hubURL': string)
    ensures linkUrl' == if Selects(link, "alternate") then link.href else linkUrl
    ensures topic' == if Selects(link, "self") then link.href else topic
    ensures hubURL' == if Selects(link, "hub") then link.href else hubURL
  {
    linkUrl', topic', hubURL' := linkUrl, topic, hubURL;
    var rels := Split(link.rel, ' ');
    var j := 0;
    while j < |rels|
      invariant 0 <= j <= |rels|
      invariant forall m :: 0 <= m < j ==> rels[m] !in FeedRels
    {
      if rels[j] == "alternate" {
        FirstInAt(rels, FeedRels, j);
        linkUrl' := link.href;
        return;
      } else if rels[j] == "self" {
        FirstInAt(rels, FeedRels, j);
        topic' := link.href;
        return;
      } else if rels[j] == "hub" {
        FirstInAt(rels, FeedRels, j);
        hubURL' := link.href;
        return;
      }
      j := j + 1;
    }
  }

  method FeedLinks(links: seq<AtomLink>) returns (linkUrl: string, topic: string, hubURL: string)
    ensures linkUrl == LinkFor(links, "alternate") && topic == LinkFor(links, "self") && hubURL == LinkFor(links, "hub")
  {
    hubURL, linkUrl, topic := "", "", "";
    var i := 0;
    while i < |links|
      invariant 0 <= i <= |links|
      invariant linkUrl == LinkFor(links[..i], "alternate") && topic == LinkFor(links[..i], "self") &&
                hubURL == LinkFor(links[..i], "hub")
    {
      LinkForStep(links, i);
      linkUrl, topic, hubURL := ApplyFeedLink(links[i], linkUrl, topic, hubURL);
      i := i + 1;
    }
    assert links[..i] == links;
  }

  /** `atomFeed.Marshal`: entries are marshalled in order into an array of
      the same length, and the first entry error is kept unless the feed's
      own `updated` failed to parse. */
  method Marshal(native: AtomFeed, parse: TimeParser) returns (feed: Feed, err: Option<string>)
    ensures Outcome(feed, err) == FeedOf(native, parse)
  {
    var updated := ZeroTime;
    err := None;
    if native.updated != "" {
      var parsed := ParseTime(AtomTimeFormats, native.updated, parse);
      updated, err := parsed.value, parsed.error;
    }

    var linkUrl, topic, hubURL := FeedLinks(native.links);

    feed := EmptyFeed("Atom").(title := native.title, description := native.description, updated := updated,
                               wwwURL := linkUrl, hubURL := hubURL, topic := topic);

    var entries, entryError := MarshalEntries(native.entries, parse);
    if err.None? {
      err := entryError;
    }
    feed := feed.(entries := entries);
  }

  /** The entry loop of `atomFeed.Marshal`: entries are marshalled in
      order into an array of the same length, and the first entry error
      is kept. */
  method MarshalEntries(natives: seq<AtomEntry>, parse: TimeParser) returns (entries: seq<Entry>, err: Option<string>)
    ensures entries == EntriesOf(natives, parse)
    ensures err == FirstError(EntryErrors(natives, parse))
  {
    var marshaled := new Entry[|natives|];
    ghost var expected := EntriesOf(natives, parse);
    ghost var errors := EntryErrors(natives, parse);
    err := None;
    var i := 0;
    while i < |natives|
      invariant 0 <= i <= |natives| == marshaled.Length
      invariant marshaled[..i] == expected[..i]
      invariant err == FirstError(errors[..i])
    {
      var entry, entryError := MarshalEntry(natives[i], parse);
      assert entry == expected[i] && entryError == errors[i];
      marshaled[i] := entry;
      assert marshaled[..i + 1] == expected[..i + 1];
      FirstErrorOfPrefix(errors, i);
      if entryError.Some? && err.None? {
        err := entryError;
      }
      i := i + 1;
    }
    assert errors[..i] == errors;
    assert marshaled[..] == marshaled[..i];
    entries := marshaled[..];

  }

  /** `atomEntry.Marshal`. */
  method MarshalEntry(native: AtomEntry, parse: TimeParser) returns (entry: Entry, err: Option<string>)
    ensures Outcome(entry, err) == EntryOf(native, parse)
  {
    var linkUrl := "";
    var i := 0;
    while i < |native.links|
      invariant 0 <= i <= |native.links|
      invariant linkUrl == EntryLink(native.links[..i])
    {
      assert native.links[..i + 1][..i] == native.links[..i];
      if linkUrl == "" || native.links[i].rel == "alternate" {
        linkUrl := native.links[i].href;
      }
      i := i + 1;
    }
    assert native.links[..i] == native.links;

    var guid := native.id;

    var content := native.content.content;
    if content == "" && native.summary.content != "" {
      content := native.summary.content;
    }

    var published := ZeroTime;
    err := None;
    if native.published != "" {
      var parsed := ParseTime(AtomTimeFormats, native.published, parse);
      published, err := parsed.value, parsed.error;
    }

    var updated := published;
    if native.updated != "" {
      var parsed := ParseTime(AtomTimeFormats, native.updated, parse);
      updated, err := parsed.value, parsed.error;
      if published == ZeroTime {
        // feeds that give only an update time use it for both
        published := updated;
      }
    }

    entry := Entry(guid, native.author.name, native.entryTitle.content, linkUrl, content, published, updated);
  }
}
