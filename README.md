# Gofr core, modelled in Dafny

Gofr is a feed reader that runs on App Engine. This project models the
sequential, self-contained parts of its server code and proves properties of
them.

- **HTML tag stripper** (`Sanitizer`, `SanitizeStack`).
  - A byte-level state machine with a context stack: safe text, unsafe text, tag, comment or script.
  - It copies only the runs of safe text to its output.
  - The stack is a linked class whose ghost `Contents` lists the values from the top down.
  - `StripTags` is a `while` loop over the bytes, proved against the step function `Step` and its iteration `Run`.
- **Batch writer** (`StorageBatch`).
  - A fixed-size `array` buffer of keys and objects, with `pending` and `written` counters.
  - It flushes to the datastore before it would overflow.
  - The datastore is a ghost sequence of the batches flushed so far.
- **Storage decisions** (`StorageIds`, `StorageKeys`, `StorageObjects`, `StorageData`, `StorageDatastore`, `StorageUtils`, `StorageMigrate`).
  - The `kind://base36` id codec and the datastore key hierarchy derived from refs.
  - The article property set, where `read` and `unread` exclude each other.
  - The unread-count deltas of the two `SetProperty` versions.
  - The article-page rule of `NewArticlePage`.
  - The article and counter decisions of `updateSubscriptionByKey`.
  - The version loop and the `Feed_V1` projection of the migration.
- **Feed normalisation** (`RssFeed`, `RssAtom`, `RssRss1`, `RssRss2`, `RssStream`, `ParserFeed`, `FraeObjects`).
  - Maps already-decoded RSS 1, RSS 2 and Atom documents to the common `Feed` and `Entry`.
  - Covers link-rel selection, content fallback, the published/updated fallback, first-error precedence and root-element dispatch.
  - Covers `UniqueID`, the update-interval clamp and the RSS 2 time-zone code substitution.
  - Times are integers, with 0 as Go's zero time.
  - `time.Parse` is a parameter of type `(format, spec) -> Option<Time>`, tried over the format list in order.
- **Small helpers**.
  - The OPML outline builders (`RssOpml`, classes).
  - The property-list edit and the error body of the JSON handlers (`JsonHandlers`).
  - The 12-hour time and date formatter of the English client locale (`L10nEnUs`).

Several source files contain the same text:

- `parseTime`, `substr` and `charsetReader` in parser/feed.go are the same as in rss/feed.go. They are modelled once, in `RssFeed`.
- `formatId` and `unformatId` in storage/data.go are the same as in storage/utils.go. They are modelled once, in `StorageIds`.

The files are snapshots from different times and do not agree with each other everywhere:

- objects.go reads the parsed entries as `Entries`, while parser/feed.go names that field `Entry`. Both are `entries` here.
- storage/migrate.go fills a `FeedMeta.Updated` field that storage/objects.go does not declare. `StorageMigrate` keeps it.

Where the source returns `(value, error)`, the model returns a `Result` or a pair with an `Option` error. Datastore reads become inputs of the model: query rows, lookup results, and whether the sink accepts a write.

## Model

| member | source | states |
|---|---|---|
| SanitizeStack.Stack.constructor | sanitize/stack.go:39-41 | the zero stack is empty |
| SanitizeStack.Stack.Push | sanitize/stack.go:43-52 | returns the pushed value, which becomes the new top above the old contents |
| SanitizeStack.Stack.Pop | sanitize/stack.go:54-65 | an empty stack gives nothing and stays empty; otherwise the top is returned and removed |
| SanitizeStack.Stack.PopMany | sanitize/stack.go:67-77 | removes min(count, depth) items (none for count ≤ 0) and returns the last one popped; returns nothing when count exceeds the depth or is not positive |
| SanitizeStack.Stack.Peek | sanitize/stack.go:79-85 | nothing iff the stack is empty, otherwise its top, without changing it |
| SanitizeStack.Stack.Walk | sanitize/stack.go:87-96 | visits items from the top; calls counts the visited items, all but the last of which the walker accepted; returns true iff some item is refused, and then the last visited is the first refused; otherwise every item was visited; the stack is not modified |
| SanitizeStack.PushThenPeek | sanitize/stack.go:43-85 | after Push(v), Peek returns v |
| SanitizeStack.PushThenPop | sanitize/stack.go:43-65 | Push(v) followed by Pop returns v and restores the previous contents |
| Sanitizer.ContentFromTag | sanitize/sanitizer.go:69-109 | "script" maps to script content, every other name in the table to safe text, and any name outside the table to unsafe text |
| Sanitizer.LowerName | sanitize/sanitizer.go:140 | lowercasing keeps the length and maps every byte to its lower-case form |
| Sanitizer.LetterRunEnd | sanitize/sanitizer.go:133-138 | the end of the letter run: all bytes before it are letters and the byte at it is not (or it is the end) |
| Sanitizer.IndexFrom | sanitize/sanitizer.go:155-160 | the first position at or after j holding the byte, or the end of the input |
| Sanitizer.CommentEnd | sanitize/sanitizer.go:221-230 | the first `/` from the given index on whose preceding byte is `*`, counting the opening star, or the end of the input |
| Sanitizer.QuotedEnd | sanitize/sanitizer.go:231-242 | the first position the walk visits (one byte at a time, two after a backslash) that holds the closing quote; no visited non-backslash byte before it holds the quote; past the end when there is none |
| Sanitizer.MatchIndex | sanitize/sanitizer.go:162-168 | the depth of the nearest context with the given tag name, if there is one |
| Sanitizer.CloseTagPops | sanitize/sanitizer.go:144-170 | a closing tag pops down to and including the nearest context of that name; with no match the stack is unchanged; a non-empty name never pops the bottom context |
| Sanitizer.Step | sanitize/sanitizer.go:121-270 | one iteration keeps the stack well formed (the bottom safe-text context stays) and moves the position strictly forward |
| Sanitizer.StepEmits | sanitize/sanitizer.go:171-190 | a byte is emitted only in safe text and only when it opens no markup; nothing is emitted inside comments, tags or scripts |
| Sanitizer.TagEnds | sanitize/sanitizer.go:201-209 | at a tag's `>`, a self-closing tag pushes nothing; otherwise the context for the tag name is pushed |
| Sanitizer.Run | sanitize/sanitizer.go:121-270 | the loop ends past the input with a well-formed stack |
| Sanitizer.RunIsSubsequence | sanitize/sanitizer.go:171-185 | from any state whose output is a subsequence of the bytes scanned so far, the final output is a subsequence of the input |
| Sanitizer.StripIsSubsequence | sanitize/sanitizer.go:171-274 | the output is a subsequence of the input and no longer than it |
| Sanitizer.RunWithoutMarkup | sanitize/sanitizer.go:121-186 | with no `<` in the input, a run from the bottom context that has copied every byte so far copies the rest too |
| Sanitizer.StripWithoutMarkup | sanitize/sanitizer.go:121-272 | an input with no `<` is returned unchanged |
| Sanitizer.SubsequenceLength | sanitize/sanitizer.go:171-185 | a subsequence is no longer than the sequence it is taken from |
| Sanitizer.ScanLetters | sanitize/sanitizer.go:133-138 | the scan loop stops at the end of the letter run |
| Sanitizer.ScanTo | sanitize/sanitizer.go:155-160 | the scan loop stops at the first occurrence of the byte, or the end |
| Sanitizer.HeadingTextDropped | sanitize/sanitizer.go:131-142 | a tag name is the run of letters after `<`, so `<h1>x</h1>` opens an element named `h`, which is not in the table, and strips to nothing |
| Sanitizer.ScanCommentEnd | sanitize/sanitizer.go:221-230 | the scan loop stops at the end of the block comment |
| Sanitizer.ScanQuoted | sanitize/sanitizer.go:231-242 | the scan loop stops at the closing quote |
| Sanitizer.PopToTag | sanitize/sanitizer.go:162-168 | the walk-and-pop leaves the stack of the closing-tag rule |
| Sanitizer.TextMarkupIteration | sanitize/sanitizer.go:126-170 | a `<` in text does what one step of the model does |
| Sanitizer.EmitByte | sanitize/sanitizer.go:171-185 | extending or restarting the write window emits exactly the byte of the step |
| Sanitizer.TextIteration | sanitize/sanitizer.go:125-186 | an iteration in text does what one step of the model does |
| Sanitizer.CommentIteration | sanitize/sanitizer.go:187-190 | an iteration in a comment does what one step of the model does |
| Sanitizer.TagIteration | sanitize/sanitizer.go:191-209 | an iteration in a tag does what one step of the model does |
| Sanitizer.ScriptIteration | sanitize/sanitizer.go:210-266 | an iteration in a script does what one step of the model does |
| Sanitizer.ScriptCloseTag | sanitize/sanitizer.go:243-265 | a closing tag inside a script does what one step of the model does: the script context is popped only when the name matches |
| Sanitizer.Iteration | sanitize/sanitizer.go:122-270 | one pass of the loop body, dispatched on the top context, does what one `Step` of the model does |
| Sanitizer.StripTags | sanitize/sanitizer.go:111-275 | the result is the model's output, so the subsequence and no-markup lemmas hold for it |
| StorageBatch.BatchWriter.constructor | storage/batch.go:54-67 | a delete writer has no object buffer and a put writer has one; both start with nothing pending or written |
| StorageBatch.BatchWriter.SupportsObjects | storage/batch.go:69-71 | true iff the writer puts objects |
| StorageBatch.BatchWriter.Written | storage/batch.go:117-119 | the number of keys flushed so far; written plus pending is the number of enqueued items |
| StorageBatch.BatchWriter.Flush | storage/batch.go:94-111 | succeeds iff nothing is pending or the sink accepts; on success the pending keys (with their objects for a put) are flushed as one batch in enqueue order, written grows by pending and pending becomes 0; a failure changes nothing |
| StorageBatch.BatchWriter.Close | storage/batch.go:113-115 | behaves exactly like Flush |
| StorageBatch.BatchWriter.Enqueue | storage/batch.go:77-92 | flushes first when pending+1 ≥ size; if that fails the item is not added; otherwise the key (and object) are stored at index pending, so pending stays below size |
| StorageBatch.BatchWriter.EnqueueKey | storage/batch.go:73-75 | Enqueue with no object |
| StorageIds.ParseFormatInt36 | storage/utils.go:35-49 | parsing the base-36 text of a 64-bit integer gives it back |
| StorageIds.FormatId | storage/utils.go:35-37 | the kind, `://`, then the lower-case base-36 digits of the number |
| StorageIds.FindSeparator | storage/utils.go:40 | the first index of `://`, if any |
| StorageIds.UnformatId | storage/utils.go:39-49 | an error iff there is no `://`; otherwise the kind is the text before the first separator and the number is the `ParseInt` value of the rest after it (sign, either case, leading zeros), or 0 when that does not parse |
| StorageIds.UnformatKindAndRest | storage/utils.go:39-49 | for a kind with no `://`, unformatting `kind://rest` gives the kind and the parse of `rest`, or 0 and no error when `rest` does not parse |
| StorageIds.UnformatFormatId | storage/utils.go:35-49 | unformatting a formatted id gives back the kind and number when the kind has no `://` |
| StorageKeys.IsZero | storage/datastore.go:52-54 | a folder ref is zero iff both its ids are empty |
| StorageKeys.IsSubscriptionExplicit | storage/objects.go:148-150 | true iff the subscription id is non-empty |
| StorageKeys.UserKey | storage/datastore.go:56-62 | an error iff the user id is empty; otherwise a root User key |
| StorageKeys.FolderKey | storage/datastore.go:64-81 | an empty folder id gives the user key; kind "folder" gives the Folder key with the parsed int id under the user key; any other kind or a user error is an error |
| StorageKeys.SubscriptionKey | storage/datastore.go:83-94 | an error for an empty subscription id; otherwise a Subscription key under the folder-ref key |
| StorageKeys.ArticleScopeKey | storage/datastore.go:96-107 | an empty subscription id gives the ancestor key itself, never an error for that reason |
| StorageKeys.ArticleKey | storage/datastore.go:109-120 | an empty subscription id is an error before anything else is derived; otherwise an Article key under the subscription key |
| StorageKeys.ArticleKeyUnderUser | storage/datastore.go:83-120 | a derived article key has the user key at the root, under a Subscription key whose parent is the user key iff the folder id is empty |
| StorageKeys.NewFolderRef | storage/utils.go:51-61 | a nil key gives an empty folder id; otherwise the id is `folder://` and the key's int id in base 36 |
| StorageKeys.FolderRefRoundTrip | storage/utils.go:51-61 | the folder key of a ref built from a key is the Folder key with that int id under the user key |
| StorageObjects.Updated | storage/objects.go:222-251 | setting adds the property and clearing removes it; setting read removes unread and the reverse; clearing a present read adds unread and the reverse; an already satisfied request changes nothing; other properties are untouched; read and unread stay exclusive |
| StorageObjects.ToggleFlips | storage/objects.go:253-255 | toggling a property flips whether it is present |
| StorageObjects.SetThenClear | storage/objects.go:222-251 | setting then clearing a new ordinary property gives back the original set |
| StorageObjects.Contains | storage/objects.go:212-220 | true iff the name occurs in the list |
| StorageObjects.PropertyMap | storage/objects.go:223-226 | the map's keys are the list's names, all mapped to true |
| StorageObjects.ChangeProperty | storage/objects.go:228-242 | the map after the change has the keys of the updated property set |
| StorageObjects.MapKeys | storage/objects.go:244-250 | the list refilled from the map holds each key once and exactly the keys |
| StorageObjects.Article.HasProperty | storage/objects.go:212-220 | true iff the name occurs in the properties |
| StorageObjects.Article.IsUnread | storage/objects.go:204-206 | true iff "unread" occurs in the properties |
| StorageObjects.Article.IsLiked | storage/objects.go:208-210 | true iff "like" occurs in the properties |
| StorageObjects.Article.SetProperty | storage/objects.go:222-251 | the new property set is the updated set, without duplicates; if the request is already satisfied the set is unchanged |
| StorageObjects.Article.ToggleProperty | storage/objects.go:253-255 | presence of the property flips |
| StorageData.PropertyChange | storage/data.go:407-447 | setting an absent read gives −1 and clearing a present read +1; clearing a present unread gives −1 and setting an absent unread +1; other names give 0; a write happens iff the set changes |
| StorageData.SatisfiedRequestWritesNothing | storage/data.go:427-449 | a read or unread request that is already satisfied writes nothing and gives delta 0 |
| StorageData.SetProperty | storage/data.go:407-467 | the article gets the new property set, and the counter moves by the delta whenever it is non-zero, with no clamp at zero |
| StorageData.CounterCanGoNegative | storage/data.go:461-467 | clearing a present unread gives −1, so a counter at 0 goes negative |
| StorageData.UserFolders | storage/data.go:214-227 | every real folder appears with id `folder://base36(key)` in order, and the root folder with empty id and title comes last |
| StorageData.UserFolderIds | storage/data.go:214-227 | each real folder's id unformats to ("folder", its key id), and only the root folder has an empty id |
| StorageDatastore.UnreadDelta | storage/datastore.go:509-522 | −1 for unread→read, +1 for read→unread, otherwise 0 |
| StorageDatastore.UnreadTransitions | storage/datastore.go:508-522 | for a request that changes the set, the delta is −1 when it takes an unread article to read, +1 when it takes a read article to unread, and 0 otherwise |
| StorageDatastore.ClampedCount | storage/datastore.go:536-548 | the counter moves by the delta only when the result stays ≥ 0 |
| StorageDatastore.SetProperty | storage/datastore.go:497-553 | nothing is written when the value already equals HasProperty; otherwise the property is set, the delta follows the unread change and the counter never drops below zero |
| StorageDatastore.PageLength | storage/datastore.go:153-174 | at most 40 and at most the number of results; fewer than 40 only when the results run out |
| StorageDatastore.Normalized | storage/datastore.go:211-213 | the entry is kept and nil tags become an empty list |
| StorageDatastore.NewArticlePage | storage/datastore.go:125-222 | a key or cursor error is returned; otherwise an error iff a failed row is among those read; at most 40 articles; a continue token only for a full page whose cursor is available; nil tags become empty lists |
| StorageUtils.Processed | storage/utils.go:71-82 | the rows processed are the prefix before the first query error (a failing `t.Next`) |
| StorageUtils.ArticleFor | storage/utils.go:84-101 | a new article starts as ["unread"] with the row's entry; an existing one keeps its entry and properties; the update index is the row's |
| StorageUtils.NewArticles | storage/utils.go:87-91 | counts the new articles written, no more than all written |
| StorageUtils.LargestUpdateIndexIsMaximum | storage/utils.go:103-105 | the largest update index is one of the written ones, and no written one is larger |
| StorageUtils.Refreshed | storage/utils.go:123-129 | the stored subscription's max index is the largest written index, and its unread count moves only if it stays ≥ 0 |
| StorageUtils.WriteArticle | storage/utils.go:84-110 | a written row is enqueued unless the flush before it fails; a new article adds 1 to the delta; the largest index grows to the row's |
| StorageUtils.WriteArticles | storage/utils.go:70-111 | on success every row was processed and the enqueued keys and articles are those of the written rows, with the largest index and the number of new articles; a row whose article read fails is skipped; a failure is a query error or a failed flush |
| StorageUtils.UpdateSubscriptionByKey | storage/utils.go:63-158 | succeeds iff no row is a query error and the sink accepts or there is nothing to write; a row whose article read fails is skipped and written nowhere; the subscription is stored iff it succeeds and at least one article was written; the stored subscription gets the largest written index and the clamped unread count; with a failing sink nothing is written |
| StorageMigrate.SplitCopiesFields | storage/migrate.go:79-101 | each old feed gives one Feed and one FeedMeta with copied fields, an empty InfoDigest, under keys sharing its string id |
| StorageMigrate.MigrationError | storage/migrate.go:63-120 | with an accepting sink, no error iff every row reads, and otherwise the first row error; with a failing sink, the write error once a flush is needed, and the first row error when a query error comes before the first flush |
| StorageMigrate.EmptyQuerySucceeds | storage/migrate.go:114-119 | a migration with no rows succeeds |
| StorageMigrate.EnqueueRow | storage/migrate.go:103-111 | one row enqueues its Feed and FeedMeta keys and objects; it fails only when the sink does |
| StorageMigrate.EnqueueRows | storage/migrate.go:68-112 | the rows are split and enqueued in order until the first error |
| StorageMigrate.MigrateToVersion2 | storage/migrate.go:63-120 | the error is the migration's first error; on success the flushed keys and objects are the split of every row in order |
| StorageMigrate.MigrateResult | storage/migrate.go:47-61 | version 2 is migrated iff current < 2 ≤ final; success returns the final version even when nothing ran; failure returns 2 |
| StorageMigrate.Migrate | storage/migrate.go:47-61 | the version loop returns the MigrateResult |
| RssFeed.LatestModification | rss/feed.go:112-118 | Updated if it is strictly after Published, Published otherwise |
| RssFeed.UniqueID | rss/feed.go:120-130 | the GUID if non-empty; otherwise the link if the latest modification is zero; otherwise link + "@" + the time's text |
| RssFeed.UniqueIDWithoutGuid | rss/feed.go:120-130 | two entries without a GUID, with the same link and non-zero times, get the same id iff their times have the same text |
| RssFeed.Clamp | rss/feed.go:99-109 | the value limited to 30 minutes .. 24 hours |
| RssFeed.DurationBetweenUpdates | rss/feed.go:73-110 | an explicit frequency gives its truncation in minutes; otherwise the clamp of the average, and exactly 30 minutes with fewer than two entries |
| RssFeed.ExplicitFrequencyIsNotClamped | rss/feed.go:74-77 | an explicit 48 hours gives two days and an explicit half hour gives 0 minutes, both outside the clamp |
| RssFeed.FormatOf | rss/feed.go:168-177 | RDF in the rdf-syntax namespace is RSS1, `rss` in any namespace RSS2, `feed` in the Atom namespace Atom; anything else is an error |
| RssFeed.Finish | rss/feed.go:188-196 | the marshalled feed gets the URL and retrieval time |
| RssFeed.ParseTime | rss/feed.go:199-211 | an empty spec gives zero time and no error; otherwise the first format in list order that parses; an error if none parses |
| RssFeed.FirstInAt | rss/atom.go:86-96 | the first rel of the list that is known is the one the rel loop picks |
| RssFeed.FirstErrorIsFirst | rss/atom.go:113-118 | the first error of a list is the error of the first failing item |
| RssFeed.FirstErrorOfPrefix | rss/atom.go:113-118 | extending a list keeps its first error, or takes the new item's error when there was none |
| RssFeed.Substr | rss/feed.go:213-221 | the characters from pos up to min(pos+len, length) |
| RssFeed.ToLower | rss/feed.go:140-146 | keeps the length and maps each character to its ASCII lower case |
| RssFeed.CharsetReader | rss/feed.go:140-146 | "iso-8859-1" in any ASCII case passes the reader through unchanged; any other charset is an error naming it |
| RssFeed.CharsetIgnoresCase | rss/feed.go:140-146 | "ISO-8859-1" is accepted and "utf-8" refused |
| RssFeed.Split | rss/atom.go:85 | at least one part, and no part contains the separator |
| RssFeed.SplitJoin | rss/atom.go:87 | joining the parts with spaces gives the original string |
| RssFeed.Index | rss/rss2.go:183 | the first position where the substring occurs, or none iff it occurs nowhere |
| RssFeed.ReplaceFirst | rss/rss2.go:184 | replaces only the first occurrence of the substring |
| RssAtom.LinkForNone | rss/atom.go:84-98 | with no link selecting a rel, the field stays empty |
| RssAtom.LinkForIsLast | rss/atom.go:84-98 | the field is set by the last link whose first matching rel is the given one |
| RssAtom.LinkForStep | rss/atom.go:84-98 | one more link overwrites the field iff it selects the rel |
| RssAtom.EntryLinkLastAlternate | rss/atom.go:126-131 | the entry link is the last alternate link when there is one |
| RssAtom.EntryLinkWithoutAlternate | rss/atom.go:126-131 | with no alternate link, the first non-empty link is kept |
| RssAtom.EntryLinkAllEmpty | rss/atom.go:126-131 | with only empty links, the entry link is empty |
| RssAtom.TimeOf | rss/atom.go:140-147 | a time parsed with the Atom formats |
| RssAtom.EntryRules | rss/atom.go:125-164 | content falls back to the summary only when empty; Updated defaults to Published; a present Updated fills a zero Published; the error is Updated's parse error when Updated is present |
| RssAtom.PublishedZeroOnlyIfUpdatedZero | rss/atom.go:145-151 | the entry's Published is zero only if Updated is zero too |
| RssAtom.PublishedErrorOverwritten | rss/atom.go:142-147 | a Published error is lost when Updated parses |
| RssAtom.FeedOf | rss/atom.go:74-123 | format "Atom", title and description copied, entries in order with the same count; the error is the feed-Updated error, else the first entry error |
| RssAtom.ApplyFeedLink | rss/atom.go:85-97 | the first matching rel of one link sets its field |
| RssAtom.FeedLinks | rss/atom.go:84-98 | the link loop computes the last link for each rel |
| RssAtom.Marshal | rss/atom.go:74-123 | the method returns FeedOf |
| RssAtom.MarshalEntries | rss/atom.go:110-120 | the entry loop fills the entries in order and finds the first entry error |
| RssAtom.MarshalEntry | rss/atom.go:125-164 | the entry method returns the entry and error of the rules |
| RssRss1.WwwLinkIsLast | rss/rss1.go:70-75 | the link is the text of the last RSS 1.0-namespaced link, empty if none |
| RssRss1.EntryRules | rss/rss1.go:100-122 | content prefers the encoded form; Published is parsed only when non-empty and its error is returned; Updated stays zero |
| RssRss1.FeedOf | rss/rss1.go:64-98 | format "RSS1", entries in order with the same count, the feed error before the first entry error |
| RssRss1.Marshal | rss/rss1.go:64-98 | the method returns FeedOf |
| RssRss1.MarshalEntries | rss/rss1.go:85-97 | the entry loop fills the entries in order and finds the first error |
| RssRss2.FirstCodeFrom | rss/rss2.go:182-188 | the first time-zone code in list order that occurs in the spec |
| RssRss2.Substituted | rss/rss2.go:181-188 | only the first occurrence of that code is replaced, by the offset at the same index |
| RssRss2.Rss2TimeRules | rss/rss2.go:161-200 | an empty spec gives zero time; a spec that parses is used as is; otherwise the result comes from the GMT/UTC zone-name retry or the one retry after substitution; a failure is zero time with "Unrecognized time format: " and the spec as last tried |
| RssRss2.Rss2Time | rss/rss2.go:161-200 | `parseRSS2Time` as a function; its behaviour is stated by `Rss2TimeRules`, and `ParseRss2Time` is proved to compute it |
| RssRss2.HastIsMatchedByAst | rss/rss2.go:158-187 | "HAST" is matched by the earlier code "AST" |
| RssRss2.Substitute | rss/rss2.go:181-188 | the code loop computes the substitution |
| RssRss2.ParseRss2Time | rss/rss2.go:161-200 | the retry loop returns the parse of the rules |
| RssRss2.WwwLinkIsLast | rss/rss2.go:75-78 | the link is the text of the last un-namespaced link |
| RssRss2.AtomLinkForNone | rss/rss2.go:78-88 | with no Atom link selecting a rel, the field stays empty |
| RssRss2.AtomLinkForIsLast | rss/rss2.go:78-88 | the field is set by the last Atom link whose first matching rel is the given one |
| RssRss2.HourlyUpdateFrequency | rss/rss2.go:101-116 | 0 without a frequency or a period; 1/frequency for "hourly" in any case; 24/frequency for "daily" and for any period it does not know; 168, 730.08 and 8766 hours over the frequency for "weekly", "monthly" and "yearly"; never negative for a positive frequency |
| RssRss2.EntryRules | rss/rss2.go:133-156 | content prefers content:encoded over the description; Updated equals Published |
| RssRss2.FeedOf | rss/rss2.go:65-131 | format "RSS2", entries in order with the same count, the feed-Updated error before the first entry error |
| RssRss2.ApplyLink | rss/rss2.go:76-88 | one link updates the field it selects |
| RssRss2.LinksStep | rss/rss2.go:75-89 | one more link changes the fields as the last-link rule says |
| RssRss2.FeedLinks | rss/rss2.go:75-89 | the link loop computes the last-link fields |
| RssRss2.Marshal | rss/rss2.go:65-131 | the method returns FeedOf |
| RssRss2.MarshalEntries | rss/rss2.go:118-128 | the entry loop fills the entries in order and finds the first error |
| RssRss2.MarshalEntry | rss/rss2.go:133-156 | the entry method returns the entry and error of the rules |
| RssStream.StreamRules | rss/feed.go:148-197 | a read error comes first, then a decode error of the root, then the unsupported-type error, then the error of decoding into the chosen format; a successful feed has the URL, the retrieval time and the name of the dispatched format |
| RssStream.RssRootIsRss2 | rss/feed.go:170-171 | an `rss` root in any namespace is marshalled as RSS2 |
| RssStream.UnmarshalStream | rss/feed.go:148-197 | the method returns the stream rules' result |
| RssOpml.Outline.Folder | rss/opml.go:81-86 | text and title are the title, the feed URL is empty, so it is a folder |
| RssOpml.Outline.Subscription | rss/opml.go:88-95 | the fields are set and a non-empty feed URL makes it a subscription |
| RssOpml.Outline.Add | rss/opml.go:101-103 | appends the outline at the end and keeps the earlier ones |
| RssOpml.FolderIffNotSubscription | rss/opml.go:67-73 | an outline is a folder iff it is not a subscription |
| RssOpml.Outline.IsFolder | rss/opml.go:67-69 | true iff the outline has no feed URL; `FolderIffNotSubscription` proves it is the negation of `IsSubscription` |
| RssOpml.Outline.IsSubscription | rss/opml.go:71-73 | true iff the outline has a feed URL; the `Subscription` constructor ensures it for a non-empty URL |
| RssOpml.Opml.constructor | rss/opml.go:75-79 | version "1.0" and no outlines |
| RssOpml.Opml.SetTitle | rss/opml.go:55-61 | Title then returns the new title; the version and outlines are unchanged |
| RssOpml.Opml.Title | rss/opml.go:55-57 | the document's head title; `SetTitle` ensures it returns the title just set |
| RssOpml.Opml.Add | rss/opml.go:97-99 | appends the outline at the end and keeps the earlier ones |
| RssOpml.Opml.Outlines | rss/opml.go:63-65 | the top-level outlines in order; `Add` ensures one more at the end |
| ParserFeed.LatestModification | parser/feed.go:149-155 | the later of Updated and Published, Published on a tie |
| ParserFeed.MostRecentIsMaximum | parser/feed.go:49-59 | the most recent modification is no earlier than any entry's and is one of them or zero |
| ParserFeed.LatestEntryModification | parser/feed.go:49-59 | the loop returns the most recent modification |
| ParserFeed.DurationBetweenUpdates | parser/feed.go:75-112 | an explicit frequency is truncated to minutes; otherwise the result lies within 30 minutes and a day, and is 30 minutes with fewer than two entries |
| ParserFeed.TrimSpace | parser/feed.go:145 | removes exactly the leading and trailing white space |
| ParserFeed.PlainTextSummary | parser/feed.go:142-147 | a prefix of the trimmed content, of at most 512 characters |
| ParserFeed.Stamped | parser/feed.go:217-219 | every entry gets the feed's retrieval time and nothing else changes |
| ParserFeed.StreamRules | parser/feed.go:173-226 | errors in the order read, root decode, dispatch, the chosen format's decode, its `Marshal`: each step's error is the result once the earlier steps pass; on success the feed has the URL and retrieval time and every entry's Retrieved equals the feed's |
| ParserFeed.UnmarshalStream | parser/feed.go:173-226 | the method returns the stream rules' result |
| FraeObjects.EntryOf | objects.go:106-115 | the stored entry copies the parsed fields with the link taken from WWWURL |
| FraeObjects.MetaOf | objects.go:116-119 | the metadata has the entry's Published and the feed's Retrieved |
| FraeObjects.NewFeed | objects.go:91-123 | never fails; feed fields are copied; entries and metadata have the parsed count and are the projections of the parsed entries |
| JsonHandlers.IndexOf | json.go:263-269 | the first index of the name, or none iff it is absent |
| JsonHandlers.EditedCases | json.go:263-283 | a set of an absent name appends it; an unset of a present name removes its first occurrence; otherwise nothing changes and nothing is written |
| JsonHandlers.Edited | json.go:263-283 | the property list after the edit and whether it is written back; its three cases are stated by `EditedCases` and its effect on membership by `EditedMembership` |
| JsonHandlers.EditedMembership | json.go:271-278 | the name is present after a set; an unset removes one occurrence; the entry is written iff the list changes |
| JsonHandlers.TagIndex | json.go:263-269 | the loop finds the first index, or −1 iff the name is absent |
| JsonHandlers.SetRequested | json.go:252 | only the literal "true" sets |
| JsonHandlers.SubEntry.SetProperty | json.go:252-283 | the entry's list becomes the edit's result, and it is written back iff the edit changed it |
| JsonHandlers.NewReadableError | json.go:62-64 | a readable error with its message and status 500 |
| JsonHandlers.WriteError | json.go:92-115 | a readable error gives its message and code; any other error the generic message and 500; the body has the single member errorMessage |
| JsonHandlers.OtherErrorsLookAlike | json.go:103-108 | the text of any other error never reaches the client |
| L10nEnUs.DigitsRoundTrip | content/l10n/en-us.js:34-38 | reading the decimal digits of a number gives it back |
| L10nEnUs.IntStringInjective | content/l10n/en-us.js:34-38 | different integers have different decimal texts |
| L10nEnUs.TwelveHourHours | content/l10n/en-us.js:27-32 | hour 0 shows as 12, 13..23 lose 12, 1..12 are kept; always in 1..12 |
| L10nEnUs.AmPm | content/l10n/en-us.js:28 | "AM" iff the hour is below 12, "PM" otherwise |
| L10nEnUs.PaddedMinutes | content/l10n/en-us.js:34-36 | two digits whose value is the minutes |
| L10nEnUs.SameDayShowsTheTime | content/l10n/en-us.js:25-38 | a same-day date shows as H:MM AM or PM with H in 1..12, and different times never show alike |
| L10nEnUs.OtherDayShowsTheDate | content/l10n/en-us.js:39-42 | another day shows as "Mon D, YYYY", and different dates never show alike |
| L10nEnUs.DateTimeFormatter | content/l10n/en-us.js:24-44 | `dateTimeFormatter`; `SameDayShowsTheTime` and `OtherDayShowsTheDate` state its two forms and that distinct inputs show distinctly |

## Left out

- Datastore I/O (queries, Get/Put/Delete, cursors, transactions): query rows, lookup results and the sink's success are inputs, because the App Engine service is not part of this model.
- StorageBatch.BatchWriter.constructor: requires a size of at least 1, because with size 0 the first `Enqueue` indexes an empty slice and Go panics.
- StorageUtils.UpdateSubscriptionByKey: every flush in one call sees the same sink result `sinkOk`, so a datastore that accepts some batches and fails a later one is not modelled.
- StorageMigrate.MigrateToVersion2: every flush in one call sees the same sink result `sinkOk`, so a datastore that accepts some batches and fails a later one is not modelled.
- StorageMigrate.MigrationError: states the error for one sink result shared by every flush, for the same reason.
- Concurrency: `updateSubscriptionAsync`, `UpdateAllSubscriptions` and the cron jobs use goroutines and channels.
- Sharded counters (storage/datastore.go:1446-1512) use random shards inside transactions; the unread counter is a single integer here.
- The like-count update in the datastore `SetProperty` (storage/datastore.go:528-534) is a transactional call into sharded counters.
- StorageDatastore.NewArticlePage: the `GetMulti` of entry details and the media loading (storage/datastore.go:186-210) are datastore reads; the entry key's parent id is the empty string when there is no parent.
- StorageUtils.UpdateSubscriptionByKey: the FeedUsage update (storage/utils.go:136-154) and the error of the final subscription Put are datastore writes.
- Floating point: the averaging in `DurationBetweenUpdates` (rss/feed.go:91-97, parser/feed.go:93-99) is a whole-hour parameter; `HourlyUpdateFrequency` is an exact `real`, not a float32.
- RssFeed.DurationBetweenUpdates: the in-place sort of publication dates only feeds the average, which is a parameter.
- XML decoding of feeds and of OPML (`ParseOPML`): decoding results are parameters.
- `time.Parse`, the formatting of times as text, and `time.Now` are parameters.
- `html.UnescapeString`, `Digest()`, `resolveURL` and `ExtractRSSLink` delegate to library code.
- Sanitizer.LowerName: letters are the exact Latin-1 `unicode.IsLetter` set on single bytes, but lowercasing is ASCII only; Go's `strings.ToLower` on non-ASCII or invalid UTF-8 bytes is not modelled.
- RssFeed.ToLower: ASCII lowercasing only, for the same reason.
- JsonHandlers.WriteError: the JSON value is modelled, not its byte encoding; `NewReadableErrorWithCode` is not modelled, and so a readable error may carry any code.
- JsonHandlers.SubEntry.SetProperty: authorisation, request parsing and the datastore Get/Put around the edit are HTTP and datastore I/O.
- Entries shared by reference are modelled as values, so aliasing between a feed's entries is not captured.
- ParserFeed.StreamRules: the parser package's own format marshalers are not part of this model; their results are parameters.
- FraeObjects.NewFeed: the EntryMeta datastore key, which `NewFeed` leaves nil, is not a field.
- Logging (`c.Errorf`, `c.Warningf`, `c.Debugf`) has no effect on results.
- HTTP handlers, routing, templates, the client DOM code and `opml/objects.go` hold no logic of the core.
- Map iteration order in the two `SetProperty` versions is unspecified in Go, so properties are specified as a set and the order of the refilled list is not stated.
- RssFeed.Substr: its precondition is exactly the set of arguments for which Go's slicing does not panic.
