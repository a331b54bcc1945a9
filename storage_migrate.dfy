/** storage/migrate.go: the schema migration. `Migrate` walks the versions
    after the current one up to the final one; version 2 splits every
    stored `Feed_V1` into a `Feed` and a `FeedMeta` under keys with the same
    string id, written through a put `BatchWriter` of size 100.

    The query over the old feeds is given as its sequence of results, and
    the datastore's batch writes succeed or fail, with `writeError`, as
    `sinkOk` says. */
module StorageMigrate {
  import opened Wrappers
  import opened StorageIds
  import opened StorageKeys
  import StorageBatch

  const MigrationBatchSize := 100

  /** The version whose migration is `migrateToVersion2`. */
  const SplitVersion := 2

  datatype FeedV1 = FeedV1(url: string, title: string, description: string, updated: int, link: string,
                           format: string, fetched: int, nextFetch: int, hourlyUpdateFrequency: real,
                           updateCounter: int64, topic: string, hubURL: string)

  /** The `Feed` and `FeedMeta` that version 2 stores, with the fields the
      migration sets. */
  datatype Feed = Feed(url: string, title: string, description: string, link: string, format: string,
                       topic: string, hubURL: string, updated: int)

  datatype FeedMeta = FeedMeta(feed: Key, infoDigest: seq<bv8>, fetched: int, nextFetch: int,
                               updateCounter: int64, hourlyUpdateFrequency: real, updated: int)

  datatype Stored = StoredFeed(feed: Feed) | StoredFeedMeta(meta: FeedMeta)

  /** One result of the query over the `Feed` kind; the end of the
      sequence is `datastore.Done`. */
  datatype QueryResult = Row(key: Key, feedV1: FeedV1) | QueryFailed(message: string)

  /** `Key.StringID`: empty for an integer id. */
  function StringIdOf(key: Key): string {
    if key.id.StringId? then key.id.name else ""
  }

  function FeedOf(v1: FeedV1): Feed {
    Feed(v1.url, v1.title, v1.description, v1.link, v1.format, v1.topic, v1.hubURL, v1.updated)
  }

  function FeedMetaOf(key: Key, v1: FeedV1): FeedMeta {
    FeedMeta(key, [], v1.fetched, v1.nextFetch, v1.updateCounter, v1.hourlyUpdateFrequency, v1.updated)
  }

  /** The new feed and its metadata copy the old feed's fields; the
      metadata points at the old key and has an empty digest, and both new
      keys are root keys with the old key's string id. */
  lemma SplitCopiesFields(key: Key, v1: FeedV1)
    ensures var f := FeedOf(v1);
            f.url == v1.url && f.title == v1.title && f.description == v1.description && f.link == v1.link &&
            f.format == v1.format && f.topic == v1.topic && f.hubURL == v1.hubURL && f.updated == v1.updated
    ensures var m := FeedMetaOf(key, v1);
            m.feed == key && m.infoDigest == [] && m.fetched == v1.fetched && m.nextFetch == v1.nextFetch &&
            m.updateCounter == v1.updateCounter && m.hourlyUpdateFrequency == v1.hourlyUpdateFrequency &&
            m.updated == v1.updated
    ensures var keys := SplitKeys(Row(key, v1));
            |keys| == 2 && keys[0].kind == "Feed" && keys[1].kind == "FeedMeta" &&
            keys[0].id == keys[1].id == StringId(StringIdOf(key)) && keys[0].parent.None? && keys[1].parent.None?
  {
  }

  /** The two keys a row is written under, in enqueue order. */
  function SplitKeys(r: QueryResult): seq<Key> {
    if r.Row? then [Key("Feed", StringId(StringIdOf(r.key)), None), Key("FeedMeta", StringId(StringIdOf(r.key)), None)]
    else []
  }

  function SplitObjects(r: QueryResult): seq<Option<Stored>> {
    if r.Row? then [Some(StoredFeed(FeedOf(r.feedV1))), Some(StoredFeedMeta(FeedMetaOf(r.key, r.feedV1)))]
    else []
  }

  /** Everything enqueued for `rs`, in order. */
  function MigratedKeys(rs: seq<QueryResult>): (keys: seq<Key>)
    ensures |keys| <= 2 * |rs|
  {
    if rs == [] then [] else MigratedKeys(rs[..|rs| - 1]) + SplitKeys(rs[|rs| - 1])
  }

  function MigratedObjects(rs: seq<QueryResult>): seq<Option<Stored>> {
    if rs == [] then [] else MigratedObjects(rs[..|rs| - 1]) + SplitObjects(rs[|rs| - 1])
  }

  /** The number of rows before the first query error. */
  function Leading(rs: seq<QueryResult>): (n: nat)
    ensures n <= |rs|
    ensures forall k :: 0 <= k < n ==> rs[k].Row?
    ensures n < |rs| ==> rs[n].QueryFailed?
  {
    if rs == [] || rs[0].QueryFailed? then 0
    else
      assert forall k :: 1 <= k < |rs| ==> rs[k] == rs[1..][k - 1];
      1 + Leading(rs[1..])
  }

  /** Where a loop over `rs` that has enqueued `i` rows stands. */
  lemma LeadingAt(rs: seq<QueryResult>, i: nat)
    requires i <= Leading(rs) && i < |rs|
    ensures rs[i].QueryFailed? <==> i == Leading(rs)
  {
  }

  /** The records of one more row. */
  lemma MigratedStep(rs: seq<QueryResult>, i: nat)
    requires i < |rs|
    ensures MigratedKeys(rs[..i + 1]) == MigratedKeys(rs[..i]) + SplitKeys(rs[i])
    ensures MigratedObjects(rs[..i + 1]) == MigratedObjects(rs[..i]) + SplitObjects(rs[i])
  {
    assert rs[..i + 1][..i] == rs[..i];
  }

  /** The error `migrateToVersion2` returns. Every row is two enqueues, so
      when writes fail the 100th enqueue, that of the 50th row, flushes and
      fails; before that only a query error or the final flush can fail. */
  function MigrationError(rs: seq<QueryResult>, sinkOk: bool, writeError: string): (err: Option<string>)
    ensures sinkOk ==> (err.None? <==> Leading(rs) == |rs|)
    ensures !sinkOk && Leading(rs) > 0 && (Leading(rs) == |rs| || 2 * Leading(rs) >= MigrationBatchSize) ==>
              err == Some(writeError)
    ensures err.Some? && err != Some(writeError) ==> Leading(rs) < |rs| && err == Some(rs[Leading(rs)].message)
    ensures sinkOk && Leading(rs) < |rs| ==> err == Some(rs[Leading(rs)].message)
    ensures !sinkOk && Leading(rs) < |rs| && 2 * Leading(rs) < MigrationBatchSize ==>
              err == Some(rs[Leading(rs)].message)
  {
    var n := Leading(rs);
    if !sinkOk && 2 * n >= MigrationBatchSize then Some(writeError)
    else if n < |rs| then Some(rs[n].message)
    else if !sinkOk && n > 0 then Some(writeError)
    else None
  }

  /** An empty query migrates nothing and succeeds even when writes would
      fail, because the final flush has nothing to send. */
  lemma EmptyQuerySucceeds(writeError: string)
    ensures MigrationError([], false, writeError) == None
  {
  }

  /** The loop body of `migrateToVersion2`: the row's `Feed`, then its
      `FeedMeta`. While writes fail and nothing was flushed, both fit
      exactly when two more items do not reach the batch size. */
  method EnqueueRow(batchWriter: StorageBatch.BatchWriter<Key, Stored>, row: QueryResult, sinkOk: bool)
    returns (ok: bool)
    requires row.Row? && batchWriter.Valid()
    requires batchWriter.op == StorageBatch.BatchPut && batchWriter.size == MigrationBatchSize
    modifies batchWriter.Repr
    ensures batchWriter.Valid()
    ensures ok ==> batchWriter.Accepted == old(batchWriter.Accepted) + SplitKeys(row) &&
                   batchWriter.AcceptedObjects == old(batchWriter.AcceptedObjects) + SplitObjects(row)
    ensures sinkOk ==> ok
    ensures !sinkOk && old(batchWriter.Flushed) == [] ==>
              (ok <==> old(batchWriter.pending) + 2 < MigrationBatchSize) &&
              (ok ==> batchWriter.Flushed == [] && batchWriter.pending == old(batchWriter.pending) + 2)
  {
    var feedKey := Key("Feed", StringId(StringIdOf(row.key)), None);
    var feedMetaKey := Key("FeedMeta", StringId(StringIdOf(row.key)), None);

    ok := batchWriter.Enqueue(feedKey, Some(StoredFeed(FeedOf(row.feedV1))), sinkOk);
    if !ok {
      return;
    }

    ok := batchWriter.Enqueue(feedMetaKey, Some(StoredFeedMeta(FeedMetaOf(row.key, row.feedV1))), sinkOk);
  }

  /** `EnqueueRow` on the next row, stated on the records of the rows so
      far. */
  method EnqueueNext(batchWriter: StorageBatch.BatchWriter<Key, Stored>, row: QueryResult,
                     ghost rs: seq<QueryResult>, i: nat, sinkOk: bool)
    returns (ok: bool)
    requires i < Leading(rs) && rs[i] == row && batchWriter.Valid()
    requires batchWriter.op == StorageBatch.BatchPut && batchWriter.size == MigrationBatchSize
    requires batchWriter.Accepted == MigratedKeys(rs[..i]) && batchWriter.AcceptedObjects == MigratedObjects(rs[..i])
    requires !sinkOk ==> batchWriter.Flushed == [] && batchWriter.pending == 2 * i
    modifies batchWriter.Repr
    ensures batchWriter.Valid()
    ensures ok ==> batchWriter.Accepted == MigratedKeys(rs[..i + 1]) &&
                   batchWriter.AcceptedObjects == MigratedObjects(rs[..i + 1])
    ensures sinkOk ==> ok
    ensures !sinkOk ==> (ok <==> 2 * (i + 1) < MigrationBatchSize) &&
                        (ok ==> batchWriter.Flushed == [] && batchWriter.pending == 2 * (i + 1))
    ensures !ok ==> 2 * Leading(rs) >= MigrationBatchSize
  {
    MigratedStep(rs, i);
    ok := EnqueueRow(batchWriter, row, sinkOk);
  }

  /** The query loop of `migrateToVersion2`: rows are enqueued until the
      first query error (`i` is then its index) or the end of the results,
      or until an enqueue fails. */
  method EnqueueRows(batchWriter: StorageBatch.BatchWriter<Key, Stored>, results: seq<QueryResult>, sinkOk: bool)
    returns (i: nat, ok: bool)
    requires batchWriter.Valid()
    requires batchWriter.op == StorageBatch.BatchPut && batchWriter.size == MigrationBatchSize
    requires batchWriter.Accepted == [] && batchWriter.AcceptedObjects == [] && batchWriter.Flushed == []
    requires batchWriter.pending == 0
    modifies batchWriter.Repr
    ensures batchWriter.Valid()
    ensures ok ==> i == Leading(results) && batchWriter.Accepted == MigratedKeys(results[..i]) &&
                   batchWriter.AcceptedObjects == MigratedObjects(results[..i])
    ensures sinkOk ==> ok
    ensures !sinkOk ==> (ok <==> 2 * Leading(results) < MigrationBatchSize)
    ensures !sinkOk && ok ==> batchWriter.Flushed == [] && batchWriter.pending == 2 * i
  {
    ghost var n := Leading(results);
    i := 0;
    while i < |results|
      invariant 0 <= i <= n
      invariant batchWriter.Valid()
      invariant batchWriter.Accepted == MigratedKeys(results[..i])
      invariant batchWriter.AcceptedObjects == MigratedObjects(results[..i])
      invariant !sinkOk ==> batchWriter.Flushed == [] && batchWriter.pending == 2 * i < MigrationBatchSize
    {
      LeadingAt(results, i);
      if results[i].QueryFailed? {
        return i, true;
      }
      ok := EnqueueNext(batchWriter, results[i], results, i, sinkOk);
      if !ok {
        return;
      }
      i := i + 1;
    }
    ok := true;
  }

  /** `migrateToVersion2`. `flushed` is what reached the datastore: on
      success, the two records of every old feed, in query order. */
  method MigrateToVersion2(results: seq<QueryResult>, sinkOk: bool, writeError: string)
    returns (err: Option<string>, ghost flushed: seq<StorageBatch.Batch<Key, Stored>>)
    ensures err == MigrationError(results, sinkOk, writeError)
    ensures err.None? ==> StorageBatch.KeysOf(flushed) == MigratedKeys(results) &&
                          StorageBatch.ObjectsOf(flushed) == MigratedObjects(results)
  {
    var batchWriter := new StorageBatch.BatchWriter<Key, Stored>(StorageBatch.BatchPut, MigrationBatchSize);

    var i, ok := EnqueueRows(batchWriter, results, sinkOk);
    if !ok {
      err, flushed := Some(writeError), batchWriter.Flushed;
      return;
    }
    if i < |results| {
      err, flushed := Some(results[i].message), batchWriter.Flushed;
      return;
    }
    assert results[..i] == results;

    ok := batchWriter.Flush(sinkOk);
    if !ok {
      err, flushed := Some(writeError), batchWriter.Flushed;
      return;
    }
    err, flushed := None, batchWriter.Flushed;
  }

  /** `Migrate`: the result of migrating from `currentVersion` to
      `finalVersion`. */
  function MigrateResult(currentVersion: int, finalVersion: int, results: seq<QueryResult>, sinkOk: bool,
                         writeError: string): (r: (int, Option<string>))
    ensures r.1.None? ==> r.0 == finalVersion
    ensures r.1.Some? ==> r.0 == SplitVersion && currentVersion < SplitVersion <= finalVersion
    ensures !(currentVersion < SplitVersion <= finalVersion) ==> r == (finalVersion, None)
  {
    if currentVersion < SplitVersion <= finalVersion && MigrationError(results, sinkOk, writeError).Some? then
      (SplitVersion, MigrationError(results, sinkOk, writeError))
    else
      (finalVersion, None)
  }

  method Migrate(currentVersion: int, finalVersion: int, results: seq<QueryResult>, sinkOk: bool, writeError: string)
    returns (version: int, err: Option<string>)
    ensures (version, err) == MigrateResult(currentVersion, finalVersion, results, sinkOk, writeError)
  {
    version := currentVersion + 1;
    while version <= finalVersion
      invariant currentVersion + 1 <= version
      invariant version > finalVersion + 1 ==> version == currentVersion + 1
      invariant currentVersion < SplitVersion < version ==> MigrationError(results, sinkOk, writeError).None?
      decreases finalVersion - version
    {
      if version == SplitVersion {
        var migrationError, _ := MigrateToVersion2(results, sinkOk, writeError);
        if migrationError.Some? {
          return version, migrationError;
        }
      }
      version := version + 1;
    }

    return finalVersion, None;
  }
}
