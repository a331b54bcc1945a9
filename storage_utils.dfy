/** The subscription refresh of storage/utils.go (`updateSubscriptionByKey`):
    every new entry of the feed becomes an article of the subscription,
    written through a `BatchWriter`; new articles start unread and raise
    the subscription's unread count, and the subscription remembers the
    largest update index written. The query and the datastore reads are
    given as inputs; the batch writes succeed or fail as `sinkOk` says. */
module StorageUtils {
  import opened Wrappers
  import opened StorageIds
  import opened StorageKeys
  import StorageBatch

  const BatchSize := 400

  datatype EntryMeta = EntryMeta(entry: Key, updateIndex: int64, fetched: int, published: int)

  datatype Article = Article(entry: Key, updateIndex: int64, fetched: int, published: int, properties: seq<string>)

  /** The result of reading the article of an entry: an existing article
      (possibly with a field mismatch, which is ignored), none yet, or
      another error, after which the entry is skipped. */
  datatype Lookup = Found(article: Article) | NoSuchEntity | ReadError

  /** One result of the entry query; the end of the sequence is
      `datastore.Done`. A field mismatch is ignored like a clean read. */
  datatype QueryResult = Next(meta: EntryMeta, lookup: Lookup) | QueryError

  datatype Subscription = Subscription(feed: Key, maxUpdateIndex: int64, unreadCount: int, updated: int)

  /** The results the loop processes: those before the first query
      error. */
  function Processed(results: seq<QueryResult>): (r: seq<QueryResult>)
    ensures |r| <= |results| && r == results[..|r|]
    ensures forall k :: 0 <= k < |r| ==> r[k].Next?
    ensures |r| < |results| ==> results[|r|].QueryError?
  {
    if results == [] || results[0].QueryError? then []
    else [results[0]] + Processed(results[1..])
  }

  /** Where a loop over `results` that has processed `i` of them stands. */
  lemma ProcessedAt(results: seq<QueryResult>, i: nat)
    requires i <= |Processed(results)| && i < |results|
    ensures results[i].QueryError? <==> i == |Processed(results)|
    ensures i < |Processed(results)| ==> Processed(results)[i] == results[i]
  {
  }

  predicate Written(r: QueryResult) {
    r.Next? && !r.lookup.ReadError?
  }

  /** The article written for a result: a new one starts as `["unread"]`. */
  function ArticleFor(r: QueryResult): (a: Article)
    requires Written(r)
    ensures a.entry == (if r.lookup.Found? then r.lookup.article.entry else r.meta.entry)
    ensures a.updateIndex == r.meta.updateIndex
    ensures r.lookup.NoSuchEntity? ==> a.properties == ["unread"]
    ensures r.lookup.Found? ==> a.properties == r.lookup.article.properties
  {
    var base := if r.lookup.Found? then r.lookup.article else Article(r.meta.entry, 0, 0, 0, ["unread"]);
    base.(updateIndex := r.meta.updateIndex, fetched := r.meta.fetched, published := r.meta.published)
  }

  function ArticleKeyFor(subscriptionKey: Key, r: QueryResult): Key
    requires r.Next?
  {
    Key("Article", StringId(if r.meta.entry.id.StringId? then r.meta.entry.id.name else ""), Some(subscriptionKey))
  }

  /** The keys, in order, of the articles written for `rs`. */
  function WrittenKeys(subscriptionKey: Key, rs: seq<QueryResult>): (keys: seq<Key>)
    ensures |keys| <= |rs|
  {
    if rs == [] then []
    else WrittenKeys(subscriptionKey, rs[..|rs| - 1]) +
         (if Written(rs[|rs| - 1]) then [ArticleKeyFor(subscriptionKey, rs[|rs| - 1])] else [])
  }

  /** The articles, in order, written for `rs`. */
  function WrittenArticles(rs: seq<QueryResult>): (articles: seq<Option<Article>>)
    ensures |articles| <= |rs|
  {
    if rs == [] then []
    else WrittenArticles(rs[..|rs| - 1]) +
         (if Written(rs[|rs| - 1]) then [Some(ArticleFor(rs[|rs| - 1]))] else [])
  }

  /** How many of the written articles are new. */
  function NewArticles(rs: seq<QueryResult>): (n: nat)
    ensures n <= |WrittenArticles(rs)|
  {
    if rs == [] then 0
    else NewArticles(rs[..|rs| - 1]) +
         (if Written(rs[|rs| - 1]) && rs[|rs| - 1].lookup.NoSuchEntity? then 1 else 0)
  }

  /** The largest update index written, or -1. */
  function LargestUpdateIndex(rs: seq<QueryResult>): (m: int64)
    ensures m >= -1
  {
    if rs == [] then -1
    else
      var m := LargestUpdateIndex(rs[..|rs| - 1]);
      var last := rs[|rs| - 1];
      if Written(last) && last.meta.updateIndex > m then last.meta.updateIndex else m
  }

  /** `LargestUpdateIndex` is the maximum of the written update indexes,
      and -1 when there is none. */
  lemma {:induction false} LargestUpdateIndexIsMaximum(rs: seq<QueryResult>)
    ensures forall k :: 0 <= k < |rs| && Written(rs[k]) ==> rs[k].meta.updateIndex <= LargestUpdateIndex(rs)
    ensures LargestUpdateIndex(rs) == -1 ||
            exists k :: 0 <= k < |rs| && Written(rs[k]) && rs[k].meta.updateIndex == LargestUpdateIndex(rs)
  {
    if rs != [] {
      var init := rs[..|rs| - 1];
      LargestUpdateIndexIsMaximum(init);
      assert forall k :: 0 <= k < |init| ==> init[k] == rs[k];
    }
  }

  /** The subscription as written back after at least one article: the
      largest update index written, and the unread count raised by the new
      articles unless that would leave it below zero. */
  function Refreshed(subscription: Subscription, rs: seq<QueryResult>, now: int): (s: Subscription)
    ensures s.feed == subscription.feed && s.updated == now
    ensures s.maxUpdateIndex == LargestUpdateIndex(rs)
    ensures subscription.unreadCount + NewArticles(rs) >= 0 ==> s.unreadCount == subscription.unreadCount + NewArticles(rs)
    ensures subscription.unreadCount + NewArticles(rs) < 0 ==> s.unreadCount == subscription.unreadCount
  {
    var count := subscription.unreadCount + NewArticles(rs);
    subscription.(updated := now, maxUpdateIndex := LargestUpdateIndex(rs),
                  unreadCount := if count >= 0 then count else subscription.unreadCount)
  }

  lemma {:induction false} WrittenKeysOfPrefix(subscriptionKey: Key, rs: seq<QueryResult>, i: nat)
    requires i <= |rs|
    ensures |WrittenKeys(subscriptionKey, rs[..i])| <= |WrittenKeys(subscriptionKey, rs)|
    decreases |rs|
  {
    if i < |rs| {
      WrittenKeysOfPrefix(subscriptionKey, rs[..|rs| - 1], i);
      assert rs[..|rs| - 1][..i] == rs[..i];
    } else {
      assert rs[..i] == rs;
    }
  }

  /** The specification functions on one more result. */
  lemma Unfold(subscriptionKey: Key, rs: seq<QueryResult>, i: nat)
    requires i < |rs|
    ensures var r := rs[i];
            WrittenKeys(subscriptionKey, rs[..i + 1]) == WrittenKeys(subscriptionKey, rs[..i]) +
              (if Written(r) then [ArticleKeyFor(subscriptionKey, r)] else []) &&
            WrittenArticles(rs[..i + 1]) == WrittenArticles(rs[..i]) +
              (if Written(r) then [Some(ArticleFor(r))] else []) &&
            NewArticles(rs[..i + 1]) == NewArticles(rs[..i]) + (if Written(r) && r.lookup.NoSuchEntity? then 1 else 0) &&
            LargestUpdateIndex(rs[..i + 1]) ==
              (if Written(r) && r.meta.updateIndex > LargestUpdateIndex(rs[..i]) then r.meta.updateIndex
               else LargestUpdateIndex(rs[..i]))
  {
    assert rs[..i + 1][..i] == rs[..i];
  }

  /** One pass of the loop body for a query result: read the article (or
      make a new unread one), copy the entry's fields, track the largest
      update index and enqueue the article. An article that could not be
      read is skipped. */
  method WriteArticle(batchWriter: StorageBatch.BatchWriter<Key, Article>, subscriptionKey: Key, r: QueryResult,
                      sinkOk: bool, largest: int64, delta: int)
    returns (enqueued: bool, largest': int64, delta': int)
    requires r.Next? && batchWriter.Valid() && batchWriter.op == StorageBatch.BatchPut
    modifies batchWriter.Repr
    ensures batchWriter.Valid()
    ensures enqueued <==> !(Written(r) && old(batchWriter.pending) + 1 >= batchWriter.size &&
                            old(batchWriter.pending) > 0 && !sinkOk)
    ensures !enqueued ==> batchWriter.pending > 0 && batchWriter.Accepted == old(batchWriter.Accepted)
    ensures enqueued ==>
              batchWriter.Accepted == old(batchWriter.Accepted) +
                (if Written(r) then [ArticleKeyFor(subscriptionKey, r)] else []) &&
              batchWriter.AcceptedObjects == old(batchWriter.AcceptedObjects) +
                (if Written(r) then [Some(ArticleFor(r))] else [])
    ensures !sinkOk && old(batchWriter.Flushed) == [] ==> batchWriter.Flushed == [] && batchWriter.written == 0
    ensures largest' == if Written(r) && r.meta.updateIndex > largest then r.meta.updateIndex else largest
    ensures delta' == delta + if Written(r) && r.lookup.NoSuchEntity? then 1 else 0
  {
    enqueued, largest', delta' := true, largest, delta;
    var meta := r.meta;
    var articleKey := Key("Article", StringId(if meta.entry.id.StringId? then meta.entry.id.name else ""),
                          Some(subscriptionKey));
    var article: Article;
    match r.lookup {
      case NoSuchEntity =>
        // an entry first seen now starts unread
        article := Article(meta.entry, 0, 0, 0, ["unread"]);
        delta' := delta + 1;
      case Found(existing) =>
        article := existing;
      case ReadError =>
        return;
    }

    article := article.(updateIndex := meta.updateIndex, fetched := meta.fetched, published := meta.published);

    if meta.updateIndex > largest {
      largest' := meta.updateIndex;
    }

    enqueued := batchWriter.Enqueue(articleKey, Some(article), sinkOk);
  }

  /** `WriteArticle` on the next processed result, stated on the
      specification functions of the results so far. */
  method WriteNext(batchWriter: StorageBatch.BatchWriter<Key, Article>, subscriptionKey: Key,
                   r: QueryResult, ghost rs: seq<QueryResult>, i: nat, sinkOk: bool, largest: int64, delta: int)
    returns (enqueued: bool, largest': int64, delta': int)
    requires i < |rs| && rs[i] == r && r.Next? && batchWriter.Valid() && batchWriter.op == StorageBatch.BatchPut
    requires batchWriter.Accepted == WrittenKeys(subscriptionKey, rs[..i])
    requires batchWriter.AcceptedObjects == WrittenArticles(rs[..i])
    requires largest == LargestUpdateIndex(rs[..i]) && delta == NewArticles(rs[..i])
    modifies batchWriter.Repr
    ensures batchWriter.Valid()
    ensures enqueued ==> batchWriter.Accepted == WrittenKeys(subscriptionKey, rs[..i + 1]) &&
                         batchWriter.AcceptedObjects == WrittenArticles(rs[..i + 1]) &&
                         largest' == LargestUpdateIndex(rs[..i + 1]) && delta' == NewArticles(rs[..i + 1])
    ensures !enqueued ==> !sinkOk && WrittenKeys(subscriptionKey, rs) != []
    ensures !sinkOk && old(batchWriter.Flushed) == [] ==> batchWriter.Flushed == [] && batchWriter.written == 0
  {
    Unfold(subscriptionKey, rs, i);
    enqueued, largest', delta' := WriteArticle(batchWriter, subscriptionKey, r, sinkOk, largest, delta);
    if !enqueued {
      WrittenKeysOfPrefix(subscriptionKey, rs, i + 1);
    }
  }

  /** The query loop of `updateSubscriptionByKey` on a fresh put writer:
      it stops at the first query error or at the first `Enqueue` whose
      flush fails. */
  method WriteArticles(batchWriter: StorageBatch.BatchWriter<Key, Article>, subscriptionKey: Key,
                       results: seq<QueryResult>, sinkOk: bool)
    returns (ok: bool, largest: int64, delta: int)
    requires batchWriter.Valid() && batchWriter.op == StorageBatch.BatchPut
    requires batchWriter.Flushed == [] && batchWriter.Accepted == [] && batchWriter.AcceptedObjects == []
    modifies batchWriter.Repr
    ensures batchWriter.Valid()
    ensures var rs := Processed(results);
            ok ==> |rs| == |results| &&
                   batchWriter.Accepted == WrittenKeys(subscriptionKey, rs) &&
                   batchWriter.AcceptedObjects == WrittenArticles(rs) &&
                   largest == LargestUpdateIndex(rs) && delta == NewArticles(rs)
    ensures var rs := Processed(results);
            !ok ==> |rs| < |results| || (!sinkOk && WrittenKeys(subscriptionKey, rs) != [])
    ensures !sinkOk ==> batchWriter.Flushed == [] && batchWriter.written == 0
  {
    largest, delta := -1, 0;
    ghost var rs := Processed(results);

    var i := 0;
    while i < |results|
      invariant 0 <= i <= |rs|
      invariant batchWriter.Valid()
      invariant batchWriter.Accepted == WrittenKeys(subscriptionKey, rs[..i])
      invariant batchWriter.AcceptedObjects == WrittenArticles(rs[..i])
      invariant !sinkOk ==> batchWriter.Flushed == [] && batchWriter.written == 0
      invariant largest == LargestUpdateIndex(rs[..i])
      invariant delta == NewArticles(rs[..i])
      decreases |results| - i
    {
      ProcessedAt(results, i);
      if results[i].QueryError? {
        return false, largest, delta;
      }
      var enqueued;
      enqueued, largest, delta := WriteNext(batchWriter, subscriptionKey, results[i], rs, i, sinkOk, largest, delta);
      if !enqueued {
        return false, largest, delta;
      }
      i := i + 1;
    }
    assert rs[..i] == rs;
    ok := true;
  }

  /** The decisions of `updateSubscriptionByKey`. It returns the number of
      articles written, whether it succeeded, and the subscription it
      writes back, if any: that happens only when some article was
      written. */
  method UpdateSubscriptionByKey(subscriptionKey: Key, subscription: Subscription, results: seq<QueryResult>,
                                 sinkOk: bool, now: int)
    returns (written: int, ok: bool, stored: Option<Subscription>)
    ensures var rs := Processed(results);
            ok && sinkOk ==> written == |WrittenKeys(subscriptionKey, rs)|
    ensures var rs := Processed(results);
            ok <==> |rs| == |results| && (sinkOk || WrittenKeys(subscriptionKey, rs) == [])
    ensures stored.Some? <==> ok && written > 0
    ensures stored.Some? ==> stored.value == Refreshed(subscription, Processed(results), now)
    ensures written >= 0
    ensures !sinkOk ==> written == 0
  {
    var batchWriter := new StorageBatch.BatchWriter<Key, Article>(StorageBatch.BatchPut, BatchSize);
    var looped, largestUpdateIndexWritten, unreadDelta := WriteArticles(batchWriter, subscriptionKey, results, sinkOk);
    if !looped {
      return batchWriter.Written(), false, None;
    }

    var flushed := batchWriter.Flush(sinkOk);
    if !flushed {
      return batchWriter.Written(), false, None;
    }

    written, ok, stored := batchWriter.Written(), true, None;
    if batchWriter.Written() > 0 {
      // the subscription is stored only after some article was
      var updated := subscription.(updated := now, maxUpdateIndex := largestUpdateIndexWritten);
      if updated.unreadCount + unreadDelta >= 0 {
        updated := updated.(unreadCount := updated.unreadCount + unreadDelta);
      }
      stored := Some(updated);
    }
  }
}
