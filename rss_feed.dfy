/** The format-independent part of rss/feed.go: the common `Feed` and
    `Entry`, `LatestModification`, `UniqueID`, the clamp of
    `DurationBetweenUpdates`, the root-element dispatch of
    `UnmarshalStream`, `parseTime`, `substr` and `charsetReader`, plus the
    few functions of Go's `strings` package that the feed formats use.

    Times are integers and 0 is Go's zero `time.Time`. `time.Parse` is an
    oracle: `parse(format, spec)` is the instant (already in UTC) or `None`
    when `spec` does not match `format`. Durations are in minutes. */
module RssFeed {
  import opened Wrappers

  type Time = int

  const ZeroTime: Time := 0

  /** `time.Parse(format, spec)` followed by `.UTC()`. */
  type TimeParser = (string, string) -> Option<Time>

  /** A value together with the error Go returns beside it. */
  datatype Outcome<T> = Outcome(value: T, error: Option<string>)

  datatype Entry = Entry(guid: string, author: string, title: string, wwwURL: string, content: string,
                         published: Time, updated: Time)

  /** The common feed. `topic` and `hubURL` are the fields that rss/atom.go
      and rss/rss2.go fill in; the struct in rss/feed.go does not list them. */
  datatype Feed = Feed(url: string, title: string, description: string, updated: Time, wwwURL: string,
                       format: string, retrieved: Time, hourlyUpdateFrequency: real,
                       topic: string, hubURL: string, entries: seq<Entry>)

  /** A feed with the given `Format` and everything else empty. */
  function EmptyFeed(format: string): (f: Feed)
    ensures f.format == format && f.entries == [] && f.hourlyUpdateFrequency == 0.0
    ensures f.updated == ZeroTime && f.retrieved == ZeroTime
  {
    Feed("", "", "", ZeroTime, "", format, ZeroTime, 0.0, "", "", [])
  }

  // ---------------------------------------------------------------------
  // Modification times and ids

  /** The later of two times; on a tie (equal times) `published`. */
  function Later(published: Time, updated: Time): (t: Time)
    ensures t >= published && t >= updated
    ensures t == published || t == updated
    ensures updated > published <==> t != published
  {
    if updated > published then updated else published
  }

  /** `Entry.LatestModification`: `Updated` if it is strictly after
      `Published`, else `Published`. */
  function LatestModification(entry: Entry): (t: Time)
    ensures t == Later(entry.published, entry.updated)
    ensures t >= entry.published && t >= entry.updated
  {
    if entry.updated > entry.published then entry.updated else entry.published
  }

  /** `Entry.UniqueID`. `timeString` is `time.Time.String`. */
  function UniqueID(entry: Entry, timeString: Time -> string): (id: string)
    ensures entry.guid != "" ==> id == entry.guid
    ensures entry.guid == "" ==> entry.wwwURL <= id
    ensures entry.guid == "" && LatestModification(entry) == ZeroTime ==> id == entry.wwwURL
    ensures entry.guid == "" && LatestModification(entry) != ZeroTime ==>
              id == entry.wwwURL + "@" + timeString(LatestModification(entry))
  {
    if entry.guid != "" then entry.guid
    else if LatestModification(entry) != ZeroTime then entry.wwwURL + "@" + timeString(LatestModification(entry))
    else entry.wwwURL
  }

  /** Two entries without a GUID and with the same link get the same id
      exactly when their latest modifications have the same string (or
      are both zero). */
  lemma UniqueIDWithoutGuid(a: Entry, b: Entry, timeString: Time -> string)
    requires a.guid == "" && b.guid == "" && a.wwwURL == b.wwwURL
    requires LatestModification(a) != ZeroTime && LatestModification(b) != ZeroTime
    ensures UniqueID(a, timeString) == UniqueID(b, timeString) <==>
            timeString(LatestModification(a)) == timeString(LatestModification(b))
  {
    var prefix := a.wwwURL + "@";
    assert UniqueID(a, timeString) == prefix + timeString(LatestModification(a));
    assert UniqueID(b, timeString) == prefix + timeString(LatestModification(b));
    if UniqueID(a, timeString) == UniqueID(b, timeString) {
      assert timeString(LatestModification(a)) == UniqueID(a, timeString)[|prefix|..];
    }
  }

  // ---------------------------------------------------------------------
  // Update frequency

  /** 30 minutes and 24 hours. */
  const MinFrequency := 30
  const MaxFrequency := 24 * 60

  /** Go's float-to-integer conversion: truncation toward zero. */
  function Truncate(x: real): (n: int)
    ensures x >= 0.0 ==> n >= 0 && n as real <= x < n as real + 1.0
    ensures x < 0.0 ==> n <= 0 && n as real - 1.0 < x <= n as real
  {
    if x >= 0.0 then x.Floor else -((-x).Floor)
  }

  /** The clamp at the end of `DurationBetweenUpdates`. */
  function Clamp(minutes: int): (r: int)
    ensures MinFrequency <= r <= MaxFrequency
    ensures MinFrequency <= minutes <= MaxFrequency ==> r == minutes
    ensures minutes > MaxFrequency ==> r == MaxFrequency
    ensures minutes < MinFrequency ==> r == MinFrequency
  {
    if minutes > MaxFrequency then MaxFrequency else if minutes < MinFrequency then MinFrequency else minutes
  }

  /** `DurationBetweenUpdates`, in minutes. An explicit frequency (in
      hours) is truncated to whole hours and not clamped; otherwise the
      average gap between the entries' modification times, in whole hours
      (`averageHours`, computed in floating point by the source), is used
      when there are at least two entries, and the result is clamped. */
  function DurationBetweenUpdates(feed: Feed, averageHours: int): (minutes: int)
    ensures feed.hourlyUpdateFrequency != 0.0 ==> minutes == Truncate(feed.hourlyUpdateFrequency) * 60
    ensures feed.hourlyUpdateFrequency == 0.0 ==> MinFrequency <= minutes <= MaxFrequency
    ensures feed.hourlyUpdateFrequency == 0.0 && |feed.entries| < 2 ==> minutes == MinFrequency
    ensures feed.hourlyUpdateFrequency == 0.0 && |feed.entries| >= 2 &&
              MinFrequency <= averageHours * 60 <= MaxFrequency ==>
              minutes == averageHours * 60
  {
    if feed.hourlyUpdateFrequency != 0.0 then
      Truncate(feed.hourlyUpdateFrequency) * 60
    else
      var average := if |feed.entries| > 1 then averageHours * 60 else 0;
      Clamp(average)
  }

  /** An explicit frequency escapes the clamp in both directions: 48 hours
      is more than a day, and half an hour truncates to nothing. */
  lemma ExplicitFrequencyIsNotClamped()
    ensures DurationBetweenUpdates(EmptyFeed("").(hourlyUpdateFrequency := 48.0), 0) == 2 * MaxFrequency
    ensures DurationBetweenUpdates(EmptyFeed("").(hourlyUpdateFrequency := 0.5), 0) == 0 < MinFrequency
  {
    assert Truncate(48.0) == 48;
    assert Truncate(0.5) == 0;
  }

  // ---------------------------------------------------------------------
  // Root dispatch

  datatype XmlName = XmlName(space: string, local: string)

  datatype FeedFormat = Rss1 | Rss2 | Atom

  const RdfNamespace := "http://www.w3.org/1999/02/22-rdf-syntax-ns#"
  const AtomNamespace := "http://www.w3.org/2005/Atom"

  /** The format chosen from the root element in `UnmarshalStream`. */
  function FormatOf(root: XmlName): (r: Result<FeedFormat>)
    ensures r == Ok(Rss1) <==> root.space == RdfNamespace && root.local == "RDF"
    ensures r == Ok(Rss2) <==> root.local == "rss"
    ensures r == Ok(Atom) <==> root.space == AtomNamespace && root.local == "feed"
    ensures r.Err? ==> r.message == "Unsupported type of feed (" + root.space + ":" + root.local + ")"
  {
    if root.space == RdfNamespace && root.local == "RDF" then Ok(Rss1)
    else if root.local == "rss" then Ok(Rss2)
    else if root.space == AtomNamespace && root.local == "feed" then Ok(Atom)
    else Err("Unsupported type of feed (" + root.space + ":" + root.local + ")")
  }

  /** The steps of `UnmarshalStream` after `Marshal`: the URL and the
      retrieval time are set, and a marshalling error discards the feed. */
  function Finish(url: string, now: Time, marshaled: Outcome<Feed>): (r: Result<Feed>)
    ensures r.Err? <==> marshaled.error.Some?
    ensures r.Err? ==> r.message == marshaled.error.value
    ensures r.Ok? ==> r.value == marshaled.value.(url := url, retrieved := now)
  {
    if marshaled.error.Some? then Err(marshaled.error.value) else Ok(marshaled.value.(url := url, retrieved := now))
  }

  // ---------------------------------------------------------------------
  // parseTime

  /** The first format, in list order, that parses `spec`. */
  function FirstParse(formats: seq<string>, spec: string, parse: TimeParser): (r: Option<Time>)
    ensures r.None? <==> forall k :: 0 <= k < |formats| ==> parse(formats[k], spec).None?
    ensures r.Some? ==> exists k :: 0 <= k < |formats| && parse(formats[k], spec) == r &&
                                    forall j :: 0 <= j < k ==> parse(formats[j], spec).None?
  {
    if formats == [] then None
    else if parse(formats[0], spec).Some? then parse(formats[0], spec)
    else
      var r := FirstParse(formats[1..], spec, parse);
      assert forall k :: 1 <= k < |formats| ==> formats[k] == formats[1..][k - 1];
      r
  }

  /** `parseTime`: an empty spec is the zero time without error; otherwise
      the first format that parses wins, and if none does the result is
      the zero time and an error naming the spec. */
  function ParseTime(formats: seq<string>, spec: string, parse: TimeParser): (r: Outcome<Time>)
    ensures spec == "" ==> r == Outcome(ZeroTime, None)
    ensures r.error.None? <==> spec == "" || exists k :: 0 <= k < |formats| && parse(formats[k], spec).Some?
    ensures r.error.Some? ==> r.value == ZeroTime && r.error.value == "Unrecognized time format: " + spec
    ensures spec != "" && r.error.None? ==> Some(r.value) == FirstParse(formats, spec, parse)
  {
    if spec != "" then
      match FirstParse(formats, spec, parse)
      case Some(t) => Outcome(t, None)
      case None => Outcome(ZeroTime, Some("Unrecognized time format: " + spec))
    else
      Outcome(ZeroTime, None)
  }

  /** The first of `items` that is in `wanted`: the rel loops of the
      feed formats, which stop at the first rel they know. */
  function FirstIn(items: seq<string>, wanted: set<string>): (r: Option<string>)
    ensures r.None? <==> forall k :: 0 <= k < |items| ==> items[k] !in wanted
    ensures r.Some? ==> r.value in wanted &&
                        exists k :: 0 <= k < |items| && items[k] == r.value &&
                                    forall j :: 0 <= j < k ==> items[j] !in wanted
  {
    if items == [] then None
    else if items[0] in wanted then Some(items[0])
    else
      assert forall k :: 1 <= k < |items| ==> items[k] == items[1..][k - 1];
      FirstIn(items[1..], wanted)
  }

  /** The first known item determines `FirstIn`. */
  lemma {:induction false} FirstInAt(items: seq<string>, wanted: set<string>, k: nat)
    requires k < |items| && items[k] in wanted
    requires forall j :: 0 <= j < k ==> items[j] !in wanted
    ensures FirstIn(items, wanted) == Some(items[k])
  {
    if k > 0 {
      assert items[1..][k - 1] == items[k];
      FirstInAt(items[1..], wanted, k - 1);
    }
  }

  /** The first of `errors` that is set: the feed-level rule "keep the
      first entry error". */
  function FirstError(errors: seq<Option<string>>): Option<string> {
    if errors == [] then None
    else if errors[0].Some? then errors[0]
    else FirstError(errors[1..])
  }

  /** `FirstError` is unset exactly when no error is set, and is otherwise
      the error with no set error before it. */
  lemma {:induction false} FirstErrorIsFirst(errors: seq<Option<string>>)
    ensures FirstError(errors).None? <==> forall k :: 0 <= k < |errors| ==> errors[k].None?
    ensures FirstError(errors).Some? ==>
              exists k :: 0 <= k < |errors| && errors[k] == FirstError(errors) &&
                          forall j :: 0 <= j < k ==> errors[j].None?
  {
    if errors != [] && errors[0].None? {
      FirstErrorIsFirst(errors[1..]);
      assert forall k :: 1 <= k < |errors| ==> errors[k] == errors[1..][k - 1];
      if FirstError(errors).Some? {
        var k :| 0 <= k < |errors[1..]| && errors[1..][k] == FirstError(errors) &&
                 forall j :: 0 <= j < k ==> errors[1..][j].None?;
        assert errors[k + 1] == FirstError(errors);
      }
    }
  }

  lemma FirstErrorAppend(errors: seq<Option<string>>, e: Option<string>)
    ensures FirstError(errors + [e]) == if FirstError(errors).Some? then FirstError(errors) else e
  {
    if errors != [] {
      assert (errors + [e])[1..] == errors[1..] + [e];
      FirstErrorAppend(errors[1..], e);
    }
  }

  /** `FirstErrorAppend` on a prefix one element longer. */
  lemma FirstErrorOfPrefix(errors: seq<Option<string>>, i: nat)
    requires i < |errors|
    ensures FirstError(errors[..i + 1]) == if FirstError(errors[..i]).Some? then FirstError(errors[..i]) else errors[i]
  {
    assert errors[..i + 1] == errors[..i] + [errors[i]];
    FirstErrorAppend(errors[..i], errors[i]);
  }

  // ---------------------------------------------------------------------
  // Strings

  /** `substr`: the runes `[pos, min(pos + length, count))`. Go panics
      unless `0 <= pos <= min(pos + length, count)`. */
  function Substr(s: string, pos: int, length: int): (r: string)
    requires 0 <= pos <= |s| && length >= 0
    ensures |r| == if pos + length <= |s| then length else |s| - pos
    ensures r <= s[pos..]
  {
    var l := if pos + length > |s| then |s| else pos + length;
    s[pos..l]
  }

  /** ASCII lowering; Go's `strings.ToLower` also lowers other letters. */
  function LowerChar(c: char): (r: char)
    ensures 'A' <= c <= 'Z' ==> r as int == c as int + 32
    ensures !('A' <= c <= 'Z') ==> r == c
  {
    if 'A' <= c <= 'Z' then (c as int + 32) as char else c
  }

  function ToLower(s: string): (r: string)
    ensures |r| == |s| && forall k :: 0 <= k < |s| ==> r[k] == LowerChar(s[k])
  {
    if s == [] then [] else [LowerChar(s[0])] + ToLower(s[1..])
  }

  /** `charsetReader`: only ISO-8859-1, in any case, is let through
      (unchanged). */
  function CharsetReader<R>(charset: string, reader: R): (r: Result<R>)
    ensures r.Ok? <==> ToLower(charset) == "iso-8859-1"
    ensures r.Ok? ==> r.value == reader
    ensures r.Err? ==> r.message == "Unsupported encoding: " + charset
  {
    if ToLower(charset) == "iso-8859-1" then Ok(reader) else Err("Unsupported encoding: " + charset)
  }

  lemma CharsetIgnoresCase<R>(reader: R)
    ensures CharsetReader("ISO-8859-1", reader) == Ok(reader)
    ensures CharsetReader("utf-8", reader).Err?
  {
    assert ToLower("ISO-8859-1") == "iso-8859-1";
    assert ToLower("utf-8")[0] == 'u';
  }

  /** `strings.Split(s, string(sep))`. */
  function Split(s: string, sep: char): (r: seq<string>)
    ensures |r| >= 1
    ensures forall k :: 0 <= k < |r| ==> sep !in r[k]
  {
    if s == [] then [""]
    else
      var rest := Split(s[1..], sep);
      if s[0] == sep then [""] + rest else [[s[0]] + rest[0]] + rest[1..]
  }

  /** `strings.Join(parts, string(sep))`. */
  function Join(parts: seq<string>, sep: char): string
    requires |parts| >= 1
  {
    if |parts| == 1 then parts[0] else parts[0] + [sep] + Join(parts[1..], sep)
  }

  /** Splitting loses nothing: the pieces join back to the input. */
  lemma {:induction false} SplitJoin(s: string, sep: char)
    ensures Join(Split(s, sep), sep) == s
  {
    if s != [] {
      var rest := Split(s[1..], sep);
      SplitJoin(s[1..], sep);
      if s[0] == sep {
        assert ([""] + rest)[1..] == rest;
      } else {
        var parts := [[s[0]] + rest[0]] + rest[1..];
        if |rest| == 1 {
          assert Join(parts, sep) == [s[0]] + rest[0];
        } else {
          assert parts[1..] == rest[1..];
          assert Join(rest, sep) == rest[0] + [sep] + Join(rest[1..], sep);
        }
      }
    }
  }

  predicate OccursAt(s: string, sub: string, k: nat) {
    k + |sub| <= |s| && s[k..k + |sub|] == sub
  }

  function IndexFrom(s: string, sub: string, k: nat): (r: Option<nat>)
    requires k <= |s|
    ensures r.Some? ==> k <= r.value <= |s| && OccursAt(s, sub, r.value) &&
                        forall j :: k <= j < r.value ==> !OccursAt(s, sub, j)
    ensures r.None? ==> forall j :: k <= j <= |s| ==> !OccursAt(s, sub, j)
    decreases |s| - k
  {
    if OccursAt(s, sub, k) then Some(k) else if k == |s| then None else IndexFrom(s, sub, k + 1)
  }

  /** `strings.Index`: the first occurrence of `sub`. */
  function Index(s: string, sub: string): (r: Option<nat>)
    ensures r.Some? ==> OccursAt(s, sub, r.value) && forall j :: 0 <= j < r.value ==> !OccursAt(s, sub, j)
    ensures r.None? <==> forall j :: 0 <= j <= |s| ==> !OccursAt(s, sub, j)
  {
    IndexFrom(s, sub, 0)
  }

  /** `strings.Contains`. */
  predicate Contains(s: string, sub: string) {
    Index(s, sub).Some?
  }

  /** `strings.HasSuffix`. */
  predicate HasSuffix(s: string, suffix: string) {
    |suffix| <= |s| && s[|s| - |suffix|..] == suffix
  }

  /** `strings.Replace(s, old, new, 1)`: only the first occurrence is
      replaced. */
  function ReplaceFirst(s: string, target: string, replacement: string): (r: string)
    ensures !Contains(s, target) ==> r == s
    ensures Contains(s, target) ==> var k := Index(s, target).value;
                                 r == s[..k] + replacement + s[k + |target|..]
  {
    match Index(s, target)
    case None => s
    case Some(k) => s[..k] + replacement + s[k + |target|..]
  }
}
