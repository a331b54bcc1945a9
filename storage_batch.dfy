/** The batch writer of storage/batch.go: a fixed-size buffer of keys (and,
    for puts, objects) that is flushed to the datastore in one multi-put or
    multi-delete before it would overflow.

    The datastore is not modelled; each flush records the batch it sends in
    the ghost sequence `Flushed`, and whether the datastore call succeeded
    is passed in as `sinkOk`. */
module StorageBatch {
  import opened Wrappers

  datatype BatchOp = BatchPut | BatchDelete

  /** What one `PutMulti` or `DeleteMulti` call is given. */
  datatype Batch<K, O> = PutBatch(keys: seq<K>, objects: seq<Option<O>>) | DeleteBatch(keys: seq<K>)

  /** The keys of a sequence of batches, in order. */
  function KeysOf<K, O>(batches: seq<Batch<K, O>>): (r: seq<K>)
    ensures batches == [] ==> r == []
  {
    if batches == [] then [] else KeysOf(batches[..|batches| - 1]) + batches[|batches| - 1].keys
  }

  /** The objects of a sequence of put batches, in order. */
  function ObjectsOf<K, O>(batches: seq<Batch<K, O>>): (r: seq<Option<O>>)
    ensures batches == [] ==> r == []
  {
    if batches == [] then []
    else ObjectsOf(batches[..|batches| - 1]) +
         (if batches[|batches| - 1].PutBatch? then batches[|batches| - 1].objects else [])
  }

  class BatchWriter<K(0), O> {
    const op: BatchOp
    const size: int
    const keys: array<K>
    /** `nil` for a delete writer. */
    const objects: array?<Option<O>>
    var pending: int
    var written: int

    /** The batches sent to the datastore so far. */
    ghost var Flushed: seq<Batch<K, O>>
    /** The keys and objects of every successful `Enqueue`, in order. */
    ghost var Accepted: seq<K>
    ghost var AcceptedObjects: seq<Option<O>>
    ghost const Repr: set<object>

    ghost predicate Valid()
      reads this, Repr
    {
      Repr == {this, keys} + (if objects == null then {} else {objects}) &&
      size >= 1 && keys.Length == size &&
      0 <= pending <= size && (size >= 2 ==> pending <= size - 1) &&
      (objects == null <==> op == BatchDelete) &&
      (objects != null ==> objects.Length == size && keys as object != objects as object &&
                           AcceptedObjects == ObjectsOf(Flushed) + objects[..pending]) &&
      written == |KeysOf(Flushed)| &&
      Accepted == KeysOf(Flushed) + keys[..pending] &&
      forall b :: b in Flushed ==>
        0 < |b.keys| <= size && (b.PutBatch? <==> op == BatchPut) &&
        (b.PutBatch? ==> |b.objects| == |b.keys|)
    }

    /** The batch the next flush sends: the first `pending` keys, paired
        index-wise with the first `pending` objects for a put writer. */
    ghost function Current(): Batch<K, O>
      requires Valid()
      reads this, Repr
    {
      if op == BatchPut then PutBatch(keys[..pending], objects[..pending]) else DeleteBatch(keys[..pending])
    }

    /** `NewBatchWriterWithSize`: a delete writer allocates no objects. */
    constructor (op: BatchOp, size: int)
      requires size >= 1
      ensures Valid() && fresh(Repr)
      ensures this.op == op && this.size == size
      ensures (objects == null) == (op == BatchDelete)
      ensures pending == 0 && written == 0 && Flushed == [] && Accepted == [] && AcceptedObjects == []
    {
      this.op := op;
      this.size := size;
      var keys := new K[size];
      this.keys := keys;
      if op != BatchDelete {
        var objects := new Option<O>[size];
        this.objects := objects;
        Repr := {this, keys, objects};
      } else {
        this.objects := null;
        Repr := {this, keys};
      }
      pending, written := 0, 0;
      Flushed, Accepted, AcceptedObjects := [], [], [];
    }

    function SupportsObjects(): (r: bool)
      requires Valid()
      reads this, Repr
      ensures r <==> op == BatchPut
      ensures r <==> objects != null
    {
      op != BatchDelete
    }

    function Written(): (n: int)
      requires Valid()
      reads this, Repr
      ensures n == |KeysOf(Flushed)|
      ensures n + pending == |Accepted|
    {
      written
    }

    /** Sends the pending batch, if any. A failed datastore call leaves
        everything as it was. */
    method Flush(sinkOk: bool) returns (ok: bool)
      requires Valid()
      modifies this
      ensures Valid()
      ensures ok <==> old(pending) == 0 || sinkOk
      ensures Accepted == old(Accepted) && AcceptedObjects == old(AcceptedObjects) && written >= old(written)
      ensures old(pending) > 0 && sinkOk ==>
                pending == 0 && written == old(written) + old(pending) &&
                Flushed == old(Flushed) + [old(Current())]
      ensures !(old(pending) > 0 && sinkOk) ==>
                pending == old(pending) && written == old(written) && Flushed == old(Flushed)
    {
      ok := true;
      if pending > 0 {
        if !sinkOk {
          return false;
        }
        ghost var batch := Current();
        assert KeysOf(Flushed + [batch]) == KeysOf(Flushed) + keys[..pending];
        assert ObjectsOf(Flushed + [batch]) == ObjectsOf(Flushed) + (if objects != null then objects[..pending] else []);
        Flushed := Flushed + [batch];
        written := written + pending;
        pending := 0;
      }
    }

    /** Exactly `Flush`. */
    method Close(sinkOk: bool) returns (ok: bool)
      requires Valid()
      modifies this
      ensures Valid()
      ensures ok <==> old(pending) == 0 || sinkOk
      ensures Accepted == old(Accepted) && AcceptedObjects == old(AcceptedObjects) && written >= old(written)
      ensures old(pending) > 0 && sinkOk ==>
                pending == 0 && written == old(written) + old(pending) &&
                Flushed == old(Flushed) + [old(Current())]
      ensures !(old(pending) > 0 && sinkOk) ==>
                pending == old(pending) && written == old(written) && Flushed == old(Flushed)
    {
      ok := Flush(sinkOk);
    }

    /** Flushes first when `pending + 1 >= size`; when that flush fails the
        item is not added. `sinkOk` is the result of that flush's datastore
        call. */
    method Enqueue(key: K, value: Option<O>, sinkOk: bool) returns (ok: bool)
      requires Valid()
      modifies Repr
      ensures Valid() && written >= old(written)
      ensures ok <==> !(old(pending) + 1 >= size && old(pending) > 0 && !sinkOk)
      ensures !ok ==> pending == old(pending) && written == old(written) && Flushed == old(Flushed) &&
                      Accepted == old(Accepted) && AcceptedObjects == old(AcceptedObjects)
      ensures ok ==> pending >= 1 && Accepted == old(Accepted) + [key] && keys[pending - 1] == key &&
                     written + pending == old(written) + old(pending) + 1
      ensures ok && objects != null ==> pending >= 1 && AcceptedObjects == old(AcceptedObjects) + [value] &&
                                        objects[pending - 1] == value
      ensures ok && objects == null ==> AcceptedObjects == old(AcceptedObjects)
      ensures ok && old(pending) + 1 >= size && old(pending) > 0 ==>
                Flushed == old(Flushed) + [old(Current())] && pending == 1
      ensures ok && !(old(pending) + 1 >= size && old(pending) > 0) ==>
                Flushed == old(Flushed) && pending == old(pending) + 1
    {
      if pending + 1 >= size {
        var flushed := Flush(sinkOk);
        if !flushed {
          return false;
        }
      }

      Append(key, value);
      ok := true;
    }

    /** The second half of `Enqueue`: the item goes into the next free
        slot, which the flush before it made room for. */
    method Append(key: K, value: Option<O>)
      requires Valid() && (pending + 1 < size || pending == 0)
      modifies Repr
      ensures Valid()
      ensures pending == old(pending) + 1 && written == old(written) && Flushed == old(Flushed)
      ensures Accepted == old(Accepted) + [key] && keys[pending - 1] == key
      ensures objects != null ==> AcceptedObjects == old(AcceptedObjects) + [value] && objects[pending - 1] == value
      ensures objects == null ==> AcceptedObjects == old(AcceptedObjects)
    {
      var supportsObjects := SupportsObjects();
      ghost var before := keys[..pending];
      keys[pending] := key;
      assert keys[..pending + 1] == before + [key];
      Accepted := Accepted + [key];
      if supportsObjects {
        ghost var objectsBefore := objects[..pending];
        assert AcceptedObjects == ObjectsOf(Flushed) + objectsBefore;
        objects[pending] := value;
        assert objects[..pending + 1] == objectsBefore + [value];
        AcceptedObjects := AcceptedObjects + [value];
      }
      pending := pending + 1;
    }

    /** `Enqueue` with a nil object. */
    method EnqueueKey(key: K, sinkOk: bool) returns (ok: bool)
      requires Valid()
      modifies Repr
      ensures Valid() && written >= old(written)
      ensures ok <==> !(old(pending) + 1 >= size && old(pending) > 0 && !sinkOk)
      ensures !ok ==> pending == old(pending) && written == old(written) && Flushed == old(Flushed) &&
                      Accepted == old(Accepted)
      ensures ok ==> Accepted == old(Accepted) + [key] && written + pending == old(written) + old(pending) + 1
      ensures ok && objects != null ==> AcceptedObjects == old(AcceptedObjects) + [None]
    {
      ok := Enqueue(key, None, sinkOk);
    }
  }
}
