/** rss/rss2.go: an already decoded RSS 2.0 document mapped to the common
    `Feed`, and `parseRSS2Time`, which retries a failed parse once with a
    GMT/UTC format and once more after replacing a US time-zone code by
    its UTC offset. */
module RssRss2 {
  import opened Wrappers
  import opened RssFeed
  import opened RssRss1

  const Rss2TimeFormats: seq<string> := [
    "Mon, 02 Jan 2006 15:04:05 -0700",
    "2006-01-02T15:04:05-07:00",
    "Mon, 02 Jan 2006 15:04:05 Z",
    "Mon, 02 Jan 2006 15:04:05",
    "Mon, 2 Jan 2006 15:04:05 -0700",
    "Mon, 2 Jan 2006 15:04:05",
    "2 Jan 2006 15:04:05 -0700",
    "Mon, 2 Jan 2006 15:04 -0700"
  ]

  /** The format tried when the spec ends in " GMT" or " UTC". */
  const ZoneNameFormat := "Mon, 2 Jan 2006 15:04:05 MST"

  const TzCodes: seq<string> := ["AST", "EST", "EDT", "CST", "CDT", "MST", "MDT", "PST", "PDT", "AKST", "AKDT",
                                 "HAST", "HADT", "SST", "SDT", "CHST", "CET"]
  const TzOffsets: seq<string> := ["-0400", "-0500", "-0400", "-0600", "-0500", "-0700", "-0600", "-0800", "-0700",
                                   "-0900", "-0800", "-1000", "-0900", "-1100", "-1000", "+1000", "+0100"]

  /** The rels an Atom link inside an RSS 2.0 channel may serve. */
  const AtomRels: set<string> := {"self", "hub"}

  datatype Rss2Entry = Rss2Entry(id: string, published: string, entryTitle: string, link: string, author: string,
                                 encodedContent: string, content: string)

  datatype Rss2Feed = Rss2Feed(title: string, description: string, updated: string, links: seq<RssLink>,
                               entries: seq<Rss2Entry>, updatePeriod: string, updateFrequency: int)

  // ---------------------------------------------------------------------
  // parseRSS2Time

  /** The first time-zone code, from index `i` on, that occurs in `spec`. */
  function FirstCodeFrom(spec: string, i: nat): (r: Option<nat>)
    requires i <= |TzCodes|
    ensures r.Some? ==> i <= r.value < |TzCodes| && Contains(spec, TzCodes[r.value]) &&
                        forall j :: i <= j < r.value ==> !Contains(spec, TzCodes[j])
    ensures r.None? ==> forall j :: i <= j < |TzCodes| ==> !Contains(spec, TzCodes[j])
    decreases |TzCodes| - i
  {
    if i == |TzCodes| then None
    else if Contains(spec, TzCodes[i]) then Some(i)
    else FirstCodeFrom(spec, i + 1)
  }

  /** The spec after the substitution: the first occurrence of the first
      contained code, in table order, becomes the offset at its index. */
  function Substituted(spec: string): (r: Option<string>)
    ensures r.None? <==> forall j :: 0 <= j < |TzCodes| ==> !Contains(spec, TzCodes[j])
  {
    match FirstCodeFrom(spec, 0)
    case None => None
    case Some(k) => Some(ReplaceFirst(spec, TzCodes[k], TzOffsets[k]))
  }

  /** `parseRSS2Time`. */
  function Rss2Time(spec: string, parse: TimeParser): Outcome<Time> {
    if spec == "" then Outcome(ZeroTime, None)
    else if ParseTime(Rss2TimeFormats, spec, parse).error.None? then ParseTime(Rss2TimeFormats, spec, parse)
    else if (HasSuffix(spec, " GMT") || HasSuffix(spec, " UTC")) && parse(ZoneNameFormat, spec).Some? then
      Outcome(parse(ZoneNameFormat, spec).value, None)
    else
      match Substituted(spec)
      case Some(retry) =>
        if ParseTime(Rss2TimeFormats, retry, parse).error.None? then ParseTime(Rss2TimeFormats, retry, parse)
        else Outcome(ZeroTime, Some("Unrecognized time format: " + retry))
      case None => Outcome(ZeroTime, Some("Unrecognized time format: " + spec))
  }

  /** An empty spec is the zero time; a failure is the zero time with an
      error naming the spec as it was last tried; a success is one of the
      three attempts, in order. */
  lemma Rss2TimeRules(spec: string, parse: TimeParser)
    ensures spec == "" ==> Rss2Time(spec, parse) == Outcome(ZeroTime, None)
    ensures var r := Rss2Time(spec, parse);
            r.error.Some? ==> (r.value == ZeroTime &&
                               r.error.value == "Unrecognized time format: " +
                                 (if Substituted(spec).Some? then Substituted(spec).value else spec))
    ensures var r := Rss2Time(spec, parse);
            spec != "" && ParseTime(Rss2TimeFormats, spec, parse).error.None? ==>
              r == ParseTime(Rss2TimeFormats, spec, parse)
    ensures var r := Rss2Time(spec, parse);
            spec != "" && r.error.None? && ParseTime(Rss2TimeFormats, spec, parse).error.Some? ==>
              ((HasSuffix(spec, " GMT") || HasSuffix(spec, " UTC")) && Some(r.value) == parse(ZoneNameFormat, spec)) ||
              (Substituted(spec).Some? && r == ParseTime(Rss2TimeFormats, Substituted(spec).value, parse))
  {
  }

  /** The codes are tried in table order, so `HAST` is matched by `AST`
      and only the `AST` part is replaced. */
  lemma HastIsMatchedByAst()
    ensures Substituted("HAST") == Some("H-0400")
  {
    assert "HAST"[0..3][0] == 'H';
    assert !OccursAt("HAST", "AST", 0);
    assert "HAST"[1..4] == "AST";
    assert IndexFrom("HAST", "AST", 1) == Some(1);
    assert Index("HAST", "AST") == Some(1);
    assert FirstCodeFrom("HAST", 0) == Some(0);
    assert "HAST"[..1] + "-0400" + "HAST"[4..] == "H-0400";
  }

  /** The loop of `parseRSS2Time` over the code table. */
  method Substitute(spec: string) returns (timeSpec: string, tryAgain: bool)
    ensures tryAgain <==> Substituted(spec).Some?
    ensures tryAgain ==> timeSpec == Substituted(spec).value
    ensures !tryAgain ==> timeSpec == spec
  {
    timeSpec, tryAgain := spec, false;
    var i := 0;
    while i < |TzCodes|
      invariant 0 <= i <= |TzCodes|
      invariant FirstCodeFrom(spec, i) == FirstCodeFrom(spec, 0)
    {
      if Contains(timeSpec, TzCodes[i]) {
        timeSpec := ReplaceFirst(timeSpec, TzCodes[i], TzOffsets[i]);
        tryAgain := true;
        break;
      }
      i := i + 1;
    }
  }

  /** `parseRSS2Time`. */
  method ParseRss2Time(spec: string, parse: TimeParser) returns (t: Time, err: Option<string>)
    ensures Outcome(t, err) == Rss2Time(spec, parse)
  {
    if spec != "" {
      var first := ParseTime(Rss2TimeFormats, spec, parse);
      if first.error.None? {
        return first.value, None;
      }

      // GMT/UTC as time-zone names are fine
      if HasSuffix(spec, " GMT") || HasSuffix(spec, " UTC") {
        var parsed := parse(ZoneNameFormat, spec);
        if parsed.Some? {
          return parsed.value, None;
        }
      }

      var timeSpec, tryAgain := Substitute(spec);
      if tryAgain {
        var retried := ParseTime(Rss2TimeFormats, timeSpec, parse);
        if retried.error.None? {
          return retried.value, None;
        }
      }

      return ZeroTime, Some("Unrecognized time format: " + timeSpec);
    }

    return ZeroTime, None;
  }

  // ---------------------------------------------------------------------
  // Specification of the marshalling

  /** The text of the last link without a namespace. */
  function WwwLink(links: seq<RssLink>): string {
    if links == [] then ""
    else if links[|links| - 1].xmlName.space == "" then links[|links| - 1].content
    else WwwLink(links[..|links| - 1])
  }

  lemma {:induction false} WwwLinkIsLast(links: seq<RssLink>)
    ensures (forall k :: 0 <= k < |links| ==> links[k].xmlName.space != "") ==> WwwLink(links) == ""
    ensures forall k :: 0 <= k < |links| && links[k].xmlName.space == "" &&
                        (forall j :: k < j < |links| ==> links[j].xmlName.space != "") ==>
                        WwwLink(links) == links[k].content
  {
    if links != [] {
      var init := links[..|links| - 1];
      WwwLinkIsLast(init);
      assert forall k :: 0 <= k < |init| ==> init[k] == links[k];
    }
  }

  /** An Atom-namespace link sets the field of its first rel that is
      `self` or `hub`. */
  predicate Selects(link: RssLink, rel: string) {
    link.xmlName.space == AtomNamespace && FirstIn(Split(link.rel, ' '), AtomRels) == Some(rel)
  }

  function AtomLinkFor(links: seq<RssLink>, rel: string): string {
    if links == [] then ""
    else if Selects(links[|links| - 1], rel) then links[|links| - 1].href
    else AtomLinkFor(links[..|links| - 1], rel)
  }

  lemma {:induction false} AtomLinkForNone(links: seq<RssLink>, rel: string)
    ensures (forall k :: 0 <= k < |links| ==> !Selects(links[k], rel)) ==> AtomLinkFor(links, rel) == ""
  {
    if links != [] {
      var init := links[..|links| - 1];
      AtomLinkForNone(init, rel);
      assert forall k :: 0 <= k < |init| ==> init[k] == links[k];
    }
  }

  lemma {:induction false} AtomLinkForIsLast(links: seq<RssLink>, rel: string, k: nat)
    requires k < |links| && Selects(links[k], rel)
    requires forall j :: k < j < |links| ==> !Selects(links[j], rel)
    ensures AtomLinkFor(links, rel) == links[k].href
  {
    if k < |links| - 1 {
      var init := links[..|links| - 1];
      assert forall j :: 0 <= j < |init| ==> init[j] == links[j];
      AtomLinkForIsLast(init, rel, k);
    }
  }

  /** The hourly update frequency from `updatePeriod`/`updateFrequency`;
      exact arithmetic in place of `float32`. "daily" and any unknown
      period mean a day. */
  function HourlyUpdateFrequency(frequency: int, period: string): (hours: real)
    ensures frequency == 0 || period == "" ==> hours == 0.0
    ensures frequency > 0 ==> hours >= 0.0
    ensures frequency != 0 && period != "" && ToLower(period) == "hourly" ==> hours == 1.0 / frequency as real
    ensures frequency != 0 && period != "" && ToLower(period) !in {"hourly", "weekly", "monthly", "yearly"} ==>
              hours == 24.0 / frequency as real
    ensures frequency != 0 && period != "" && ToLower(period) == "daily" ==> hours == 24.0 / frequency as real
    ensures frequency != 0 && period != "" && ToLower(period) == "weekly" ==> hours == 168.0 / frequency as real
    ensures frequency != 0 && period != "" && ToLower(period) == "monthly" ==> hours == 730.08 / frequency as real
    ensures frequency != 0 && period != "" && ToLower(period) == "yearly" ==> hours == 8766.0 / frequency as real
  {
    if frequency != 0 && period != "" then
      var f := frequency as real;
      var p := ToLower(period);
      if p == "hourly" then 1.0 / f
      else if p == "weekly" then (24.0 * 7.0) / f
      else if p == "monthly" then (24.0 * 30.42) / f
      else if p == "yearly" then (24.0 * 365.25) / f
      else 24.0 / f
    else 0.0
  }

  /** `rss2Entry.Marshal`. */
  function EntryOf(native: Rss2Entry, parse: TimeParser): Outcome<Entry> {
    var content := if native.encodedContent == "" then native.content else native.encodedContent;
    var published := if native.published != "" then Rss2Time(native.published, parse) else Outcome(ZeroTime, None);
    Outcome(Entry(native.id, native.author, native.entryTitle, native.link, content, published.value, published.value),
            published.error)
  }

  /** Encoded content is preferred over the description; `Updated` equals
      `Published`; the entry's error is that of its `pubDate`. */
  lemma EntryRules(native: Rss2Entry, parse: TimeParser)
    ensures var e := EntryOf(native, parse).value;
            e.guid == native.id && e.author == native.author && e.title == native.entryTitle &&
            e.wwwURL == native.link && e.updated == e.published
    ensures var e := EntryOf(native, parse).value;
            (native.encodedContent != "" ==> e.content == native.encodedContent) &&
            (native.encodedContent == "" ==> e.content == native.content)
    ensures Outcome(EntryOf(native, parse).value.published, EntryOf(native, parse).error) ==
            Rss2Time(native.published, parse)
  {
  }

  /** The marshalled entries, in order. Each format has its own entry
      loop over its own native entry type, so `EntriesOf`, `EntryErrors`
      and `MarshalEntries` are written once per format, each over that
      format's `EntryOf`. */
  function EntriesOf(natives: seq<Rss2Entry>, parse: TimeParser): (entries: seq<Entry>)
    ensures |entries| == |natives|
  {
    seq(|natives|, i requires 0 <= i < |natives| => EntryOf(natives[i], parse).value)
  }

  function EntryErrors(natives: seq<Rss2Entry>, parse: TimeParser): (errors: seq<Option<string>>)
    ensures |errors| == |natives|
  {
    seq(|natives|, i requires 0 <= i < |natives| => EntryOf(natives[i], parse).error)
  }

  function UpdatedOf(native: Rss2Feed, parse: TimeParser): Outcome<Time> {
    if native.updated != "" then Rss2Time(native.updated, parse) else Outcome(ZeroTime, None)
  }

  /** `rss2Feed.Marshal`. */
  function FeedOf(native: Rss2Feed, parse: TimeParser): (r: Outcome<Feed>)
    ensures r.value.format == "RSS2" && r.value.title == native.title && r.value.description == native.description
    ensures r.value.updated == UpdatedOf(native, parse).value && r.value.wwwURL == WwwLink(native.links)
    ensures r.value.topic == AtomLinkFor(native.links, "self") && r.value.hubURL == AtomLinkFor(native.links, "hub")
    ensures r.value.hourlyUpdateFrequency == HourlyUpdateFrequency(native.updateFrequency, native.updatePeriod)
    ensures |r.value.entries| == |native.entries|
    ensures forall i :: 0 <= i < |native.entries| ==> r.value.entries[i] == EntryOf(native.entries[i], parse).value
    ensures UpdatedOf(native, parse).error.Some? ==> r.error == UpdatedOf(native, parse).error
    ensures UpdatedOf(native, parse).error.None? ==> r.error == FirstError(EntryErrors(native.entries, parse))
  {
    var updated := UpdatedOf(native, parse);
    var feed := EmptyFeed("RSS2").(title := native.title, description := native.description, updated := updated.value,
                                   wwwURL := WwwLink(native.links), topic := AtomLinkFor(native.links, "self"),
                                   hubURL := AtomLinkFor(native.links, "hub"),
                                   hourlyUpdateFrequency := HourlyUpdateFrequency(native.updateFrequency, native.updatePeriod),
                                   entries := EntriesOf(native.entries, parse));
    Outcome(feed, if updated.error.Some? then updated.error else FirstError(EntryErrors(native.entries, parse)))
  }

  // ---------------------------------------------------------------------
  // The marshalling code

  /** One pass of the channel's link loop. */
  method ApplyLink(link: RssLink, linkUrl: string, topic: string, hubURL: string)
    returns (linkUrl': string, topic': string, hubURL': string)
    ensures linkUrl' == if link.xmlName.space == "" then link.content else linkUrl
    ensures topic' == if Selects(link, "self") then link.href else topic
    ensures hubURL' == if Selects(link, "hub") then link.href else hubURL
  {
    linkUrl', topic', hubURL' := linkUrl, topic, hubURL;
    if link.xmlName.space == "" {
      linkUrl' := link.content;
    } else if link.xmlName.space == AtomNamespace {
      var rels := Split(link.rel, ' ');
      var j := 0;
      while j < |rels|
        invariant 0 <= j <= |rels|
        invariant forall m :: 0 <= m < j ==> rels[m] !in AtomRels
      {
        if rels[j] == "self" {
          FirstInAt(rels, AtomRels, j);
          topic' := link.href;
          return;
        } else if rels[j] == "hub" {
          FirstInAt(rels, AtomRels, j);
          hubURL' := link.href;
          return;
        }
        j := j + 1;
      }
    }
  }

  lemma LinksStep(links: seq<RssLink>, i: nat)
    requires i < |links|
    ensures WwwLink(links[..i + 1]) == if links[i].xmlName.space == "" then links[i].content else WwwLink(links[..i])
    ensures forall rel :: AtomLinkFor(links[..i + 1], rel) == if Selects(links[i], rel) then links[i].href
                                                             else AtomLinkFor(links[..i], rel)
  {
    assert links[..i + 1][..i] == links[..i];
  }

  method FeedLinks(links: seq<RssLink>) returns (linkUrl: string, topic: string, hubURL: string)
    ensures linkUrl == WwwLink(links) && topic == AtomLinkFor(links, "self") && hubURL == AtomLinkFor(links, "hub")
  {
    hubURL, linkUrl, topic := "", "", "";
    var i := 0;
    while i < |links|
      invariant 0 <= i <= |links|
      invariant linkUrl == WwwLink(links[..i]) && topic == AtomLinkFor(links[..i], "self") &&
                hubURL == AtomLinkFor(links[..i], "hub")
    {
      LinksStep(links, i);
      linkUrl, topic, hubURL := ApplyLink(links[i], linkUrl, topic, hubURL);
      i := i + 1;
    }
    assert links[..i] == links;
  }

  /** `rss2Feed.Marshal`. */
  method Marshal(native: Rss2Feed, parse: TimeParser) returns (feed: Feed, err: Option<string>)
    ensures Outcome(feed, err) == FeedOf(native, parse)
  {
    var updated := ZeroTime;
    err := None;
    if native.updated != "" {
      updated, err := ParseRss2Time(native.updated, parse);
    }

    var linkUrl, topic, hubURL := FeedLinks(native.links);

    feed := EmptyFeed("RSS2").(title := native.title, description := native.description, updated := updated,
                               wwwURL := linkUrl, topic := topic, hubURL := hubURL);

    if native.updateFrequency != 0 && native.updatePeriod != "" {
      feed := feed.(hourlyUpdateFrequency := HourlyUpdateFrequency(native.updateFrequency, native.updatePeriod));
    }

    var entries, entryError := MarshalEntries(native.entries, parse);
    if err.None? {
      err := entryError;
    }
    feed := feed.(entries := entries);
  }

  /** The entry loop of `rss2Feed.Marshal`. */
  method MarshalEntries(natives: seq<Rss2Entry>, parse: TimeParser) returns (entries: seq<Entry>, err: Option<string>)
    ensures entries == EntriesOf(natives, parse)
    ensures err == FirstError(EntryErrors(natives, parse))
  {
    var marshaled := new Entry[|natives|];
    ghost var expected := EntriesOf(natives, parse);
    ghost var errors := EntryErrors(natives, parse);
    err := None;
    var i := 0;
    while i < |natives|
      invariant 0 <= i <= |natives| == marshaled.Length
      invariant marshaled[..i] == expected[..i]
      invariant err == FirstError(errors[..i])
    {
      var entry, entryError := MarshalEntry(natives[i], parse);
      assert entry == expected[i] && entryError == errors[i];
      marshaled[i] := entry;
      assert marshaled[..i + 1] == expected[..i + 1];
      FirstErrorOfPrefix(errors, i);
      if entryError.Some? && err.None? {
        err := entryError;
      }
      i := i + 1;
    }
    assert errors[..i] == errors;
    assert marshaled[..] == marshaled[..i];
    entries := marshaled[..];
  }

  /** `rss2Entry.Marshal`. */
  method MarshalEntry(native: Rss2Entry, parse: TimeParser) returns (entry: Entry, err: Option<string>)
    ensures Outcome(entry, err) == EntryOf(native, parse)
  {
    var guid := native.id;
    var content := native.encodedContent;
    if content == "" {
      content := native.content;
    }

    var published := ZeroTime;
    err := None;
    if native.published != "" {
      published, err := ParseRss2Time(native.published, parse);
    }

    entry := Entry(guid, native.author, native.entryTitle, native.link, content, published, published);
  }
}
