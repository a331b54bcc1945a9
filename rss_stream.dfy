/** `UnmarshalStream` of rss/feed.go: the stream is read, its root element
    decoded to pick the format, the document decoded once more into that
    format's structure and marshalled, and the URL and retrieval time set.
    Reading and XML decoding are outside the model: their outcomes are
    parameters. */
module RssStream {
  import opened Wrappers
  import opened RssFeed
  import RssAtom
  import RssRss1
  import RssRss2

  /** What the XML decoder makes of the stream, once per target type. */
  datatype Decoded = Decoded(root: Result<XmlName>, rss1: Result<RssRss1.Rss1Feed>, rss2: Result<RssRss2.Rss2Feed>,
                             atom: Result<RssAtom.AtomFeed>)

  /** The name of each format as `Marshal` writes it into `Feed.Format`. */
  function FormatName(format: FeedFormat): string {
    match format
    case Rss1 => "RSS1"
    case Rss2 => "RSS2"
    case Atom => "Atom"
  }

  /** The specification of `UnmarshalStream`. */
  function StreamOf(url: string, readError: Option<string>, decoded: Decoded, parse: TimeParser, now: Time)
    : Result<Feed>
  {
    if readError.Some? then Err(readError.value)
    else if decoded.root.Err? then Err(decoded.root.message)
    else match FormatOf(decoded.root.value)
      case Err(message) => Err(message)
      case Ok(Rss1) =>
        if decoded.rss1.Err? then Err(decoded.rss1.message)
        else Finish(url, now, RssRss1.FeedOf(decoded.rss1.value, parse))
      case Ok(Rss2) =>
        if decoded.rss2.Err? then Err(decoded.rss2.message)
        else Finish(url, now, RssRss2.FeedOf(decoded.rss2.value, parse))
      case Ok(Atom) =>
        if decoded.atom.Err? then Err(decoded.atom.message)
        else Finish(url, now, RssAtom.FeedOf(decoded.atom.value, parse))
  }

  /** Errors are reported in the order of the steps: reading, the root
      element, an unsupported root, the decode into the chosen format; a feed that comes back carries the URL,
      the retrieval time and the name of the format its root chose. */
  lemma StreamRules(url: string, readError: Option<string>, decoded: Decoded, parse: TimeParser, now: Time)
    ensures var r := StreamOf(url, readError, decoded, parse, now);
            readError.Some? ==> r == Err(readError.value)
    ensures var r := StreamOf(url, readError, decoded, parse, now);
            readError.None? && decoded.root.Err? ==> r == Err(decoded.root.message)
    ensures var r := StreamOf(url, readError, decoded, parse, now);
            readError.None? && decoded.root.Ok? && FormatOf(decoded.root.value).Err? ==>
              r == Err("Unsupported type of feed (" + decoded.root.value.space + ":" + decoded.root.value.local + ")")
    ensures var r := StreamOf(url, readError, decoded, parse, now);
            readError.None? && decoded.root.Ok? && FormatOf(decoded.root.value) == Ok(Rss1) && decoded.rss1.Err? ==>
              r == Err(decoded.rss1.message)
    ensures var r := StreamOf(url, readError, decoded, parse, now);
            readError.None? && decoded.root.Ok? && FormatOf(decoded.root.value) == Ok(Rss2) && decoded.rss2.Err? ==>
              r == Err(decoded.rss2.message)
    ensures var r := StreamOf(url, readError, decoded, parse, now);
            readError.None? && decoded.root.Ok? && FormatOf(decoded.root.value) == Ok(Atom) && decoded.atom.Err? ==>
              r == Err(decoded.atom.message)
    ensures var r := StreamOf(url, readError, decoded, parse, now);
            r.Ok? ==> readError.None? && decoded.root.Ok? && FormatOf(decoded.root.value).Ok? &&
                      r.value.url == url && r.value.retrieved == now &&
                      r.value.format == FormatName(FormatOf(decoded.root.value).value)
  {
  }

  /** A feed with an RSS root is marshalled as RSS 2.0 whatever its
      namespace, unless it is the RDF root of RSS 1.0. */
  lemma RssRootIsRss2(url: string, space: string, decoded: Decoded, parse: TimeParser, now: Time)
    requires decoded.root == Ok(XmlName(space, "rss")) && decoded.rss2.Ok?
    ensures StreamOf(url, None, decoded, parse, now) == Finish(url, now, RssRss2.FeedOf(decoded.rss2.value, parse))
  {
  }

  /** `UnmarshalStream`. */
  method UnmarshalStream(url: string, readError: Option<string>, decoded: Decoded, parse: TimeParser, now: Time)
    returns (r: Result<Feed>)
    ensures r == StreamOf(url, readError, decoded, parse, now)
  {
    if readError.Some? {
      return Err(readError.value);
    }
    if decoded.root.Err? {
      return Err(decoded.root.message);
    }

    var root := decoded.root.value;
    var feed: Feed;
    var err: Option<string>;
    if root.space == RdfNamespace && root.local == "RDF" {
      if decoded.rss1.Err? {
        return Err(decoded.rss1.message);
      }
      feed, err := RssRss1.Marshal(decoded.rss1.value, parse);
    } else if root.local == "rss" {
      if decoded.rss2.Err? {
        return Err(decoded.rss2.message);
      }
      feed, err := RssRss2.Marshal(decoded.rss2.value, parse);
    } else if root.space == AtomNamespace && root.local == "feed" {
      if decoded.atom.Err? {
        return Err(decoded.atom.message);
      }
      feed, err := RssAtom.Marshal(decoded.atom.value, parse);
    } else {
      return Err("Unsupported type of feed (" + root.space + ":" + root.local + ")");
    }

    feed := feed.(url := url, retrieved := now);
    if err.Some? {
      return Err(err.value);
    }
    return Ok(feed);
  }
}
