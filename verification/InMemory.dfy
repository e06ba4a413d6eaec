/** The in-memory store: an ordered tree of byte keys, its range scan, and the scan's iterator. */
module InMemory {
  import opened Common
  import opened ByteOrder
  import opened Storage

  type Tree = map<Bytes, Bytes>

  // Ordered iteration of a tree

  ghost predicate IsLeastKey(keys: set<Bytes>, k: Bytes) {
    k in keys && forall other | other in keys :: AtMost(k, other)
  }

  lemma {:induction false} LeastKeyExists(keys: set<Bytes>)
    requires keys != {}
    ensures exists k :: IsLeastKey(keys, k)
  {
    var some :| some in keys;
    var rest := keys - {some};
    assert keys == rest + {some};
    if rest == {} {
      assert IsLeastKey(keys, some);
    } else {
      LeastKeyExists(rest);
      var least :| IsLeastKey(rest, least);
      LessTotal(some, least);
      if AtMost(least, some) {
        assert IsLeastKey(keys, least);
      } else {
        forall other | other in keys ensures AtMost(some, other) {
          if other != some && other != least {
            assert AtMost(least, other) && Less(some, least);
            LessTransitive(some, least, other);
          }
        }
        assert IsLeastKey(keys, some);
      }
    }
  }

  function RecordsOf(tree: Tree, keys: seq<Bytes>): (records: seq<StorageRecord>)
    requires forall k | k in keys :: k in tree
    ensures |records| == |keys|
    ensures forall i | 0 <= i < |keys| :: records[i] == StorageRecord(keys[i], tree[keys[i]])
  {
    seq(|keys|, i requires 0 <= i < |keys| => StorageRecord(keys[i], tree[keys[i]]))
  }

  /** The keys of a set in the order in which an ordered tree visits them. */
  ghost function Ordered(keys: set<Bytes>): (sorted: seq<Bytes>)
    ensures StrictlyAscending(sorted)
    ensures forall k :: k in sorted <==> k in keys
  {
    if keys == {} then []
    else
      LeastKeyExists(keys);
      var least :| IsLeastKey(keys, least);
      var rest := Ordered(keys - {least});
      assert forall i | 0 <= i < |rest| :: rest[i] in rest;
      [least] + rest
  }

  lemma SameElementsSameHead(a: seq<Bytes>, b: seq<Bytes>)
    requires StrictlyAscending(a) && StrictlyAscending(b) && a != [] && b != [] && a[0] in b && b[0] in a
    ensures a[0] == b[0]
  {
    var i :| 0 <= i < |a| && a[i] == b[0];
    var j :| 0 <= j < |b| && b[j] == a[0];
    if i > 0 && j > 0 {
      LessAsymmetric(a[0], b[0]);
    }
  }

  lemma TailElements(a: seq<Bytes>, k: Bytes)
    requires StrictlyAscending(a) && a != []
    ensures k in a[1..] <==> k in a && k != a[0]
  {
    LessIrreflexive(a[0]);
    assert a == [a[0]] + a[1..];
    if k in a[1..] {
      var i :| 0 <= i < |a[1..]| && a[1..][i] == k;
      assert Less(a[0], a[i + 1]);
    }
  }

  /** A strictly ascending sequence is determined by its elements. */
  lemma {:induction false} AscendingIsUnique(a: seq<Bytes>, b: seq<Bytes>)
    requires StrictlyAscending(a) && StrictlyAscending(b)
    requires forall k :: k in a <==> k in b
    ensures a == b
  {
    assert a != [] ==> a[0] in a && a[0] in b;
    assert b != [] ==> b[0] in b && b[0] in a;
    if a != [] && b != [] {
      SameElementsSameHead(a, b);
      forall k ensures k in a[1..] <==> k in b[1..] {
        TailElements(a, k);
        TailElements(b, k);
      }
      AscendingIsUnique(a[1..], b[1..]);
      assert a == [a[0]] + a[1..] && b == [b[0]] + b[1..];
    }
  }

  function Applied(tree: Tree, batch: seq<StorageRecord>): Tree
    decreases |batch|
  {
    if batch == [] then tree
    else Applied(tree[batch[0].key := batch[0].value], batch[1..])
  }

  lemma {:induction false} AppliedSnoc(tree: Tree, batch: seq<StorageRecord>, r: StorageRecord)
    ensures Applied(tree, batch + [r]) == Applied(tree, batch)[r.key := r.value]
    decreases |batch|
  {
    if batch != [] {
      assert (batch + [r])[1..] == batch[1..] + [r];
      AppliedSnoc(tree[batch[0].key := batch[0].value], batch[1..], r);
    }
  }

  /** Of several writes to one key the last in the batch counts; keys the batch does not write keep their values. */
  lemma {:induction false} LastWriteCounts(tree: Tree, batch: seq<StorageRecord>, i: nat, k: Bytes)
    requires i <= |batch| && forall j | i < j < |batch| :: batch[j].key != k
    ensures i < |batch| && batch[i].key == k ==> k in Applied(tree, batch) && Applied(tree, batch)[k] == batch[i].value
    ensures (forall j | 0 <= j < |batch| :: batch[j].key != k) ==>
              (k in Applied(tree, batch) <==> k in tree) && (k in tree ==> Applied(tree, batch)[k] == tree[k])
    decreases |batch|
  {
    if batch != [] {
      var tree' := tree[batch[0].key := batch[0].value];
      if i > 0 {
        LastWriteCounts(tree', batch[1..], i - 1, k);
      } else {
        LastWriteCounts(tree', batch[1..], |batch| - 1, k);
      }
    }
  }

  class InMemoryStorage {
    var tree: Tree
    var seqnum: u64

    constructor ()
      ensures tree == map[] && seqnum == 0
    {
      tree := map[];
      seqnum := 0;
    }

    // `fault` stands for what only the environment decides: whether this call reaches the store.
    method Apply(batch: seq<StorageRecord>, fault: Option<StorageError>) returns (r: Result<WriteResult, StorageError>)
      modifies this
      ensures fault.Some? ==> r == Err(fault.value) && tree == old(tree) && seqnum == old(seqnum)
      ensures fault.None? ==>
                tree == Applied(old(tree), batch) && seqnum == WrapAdd(old(seqnum), 1) && r == Ok(WriteResult(seqnum))
    {
      if fault.Some? {
        return Err(fault.value);
      }
      for i := 0 to |batch|
        invariant tree == Applied(old(tree), batch[..i])
        invariant seqnum == old(seqnum)
      {
        tree := tree[batch[i].key := batch[i].value];
        AppliedSnoc(old(tree), batch[..i], batch[i]);
        assert batch[..i + 1] == batch[..i] + [batch[i]];
      }
      assert batch[..|batch|] == batch;
      seqnum := WrapAdd(seqnum, 1);
      r := Ok(WriteResult(seqnum));
    }

    method Get(key: Bytes, fault: Option<StorageError>) returns (r: Result<Option<StorageRecord>, StorageError>)
      ensures fault.Some? ==> r == Err(fault.value)
      ensures fault.None? && key in tree ==> r == Ok(Some(StorageRecord(key, tree[key])))
      ensures fault.None? && key !in tree ==> r == Ok(None)
    {
      if fault.Some? {
        return Err(fault.value);
      }
      r := Ok(if key in tree then Some(StorageRecord(key, tree[key])) else None);
    }

    method ScanIter(range: BytesRange, fault: Option<StorageError>) returns (r: Result<InMemoryIterator, StorageError>)
      requires range.Scannable()
      ensures fault.Some? ==> r == Err(fault.value)
      ensures fault.None? ==> r.Ok? && fresh(r.value) && r.value.position == 0
      ensures fault.None? ==>
                var hits := set k | k in tree && range.Contains(k);
                r.value.records == RecordsOf(tree, Ordered(hits))
    {
      if fault.Some? {
        return Err(fault.value);
      }
      ghost var hits := set k | k in tree && range.Contains(k);
      // The tree is walked in key order; picking the least key that is left is what that walk does.
      var left := set k | k in tree && range.Contains(k);
      var keys: seq<Bytes> := [];
      while left != {}
        invariant left <= hits
        invariant forall k :: k in keys <==> k in hits - left
        invariant StrictlyAscending(keys)
        invariant forall i, k | 0 <= i < |keys| && k in left :: Less(keys[i], k)
        decreases |left|
      {
        LeastKeyExists(left);
        var least :| least in left && forall other | other in left :: AtMost(least, other);
        AscendingSnoc(keys, least);
        LessIrreflexive(least);
        forall i, k | 0 <= i < |keys + [least]| && k in left - {least} ensures Less((keys + [least])[i], k) {
          assert k in left && AtMost(least, k);
        }
        keys := keys + [least];
        left := left - {least};
      }
      AscendingIsUnique(keys, Ordered(hits));
      var iter := new InMemoryIterator(RecordsOf(tree, keys));
      r := Ok(iter);
    }
  }

  class InMemoryIterator {
    const records: seq<StorageRecord>
    var position: nat

    constructor (records: seq<StorageRecord>)
      ensures this.records == records && position == 0
    {
      this.records := records;
      position := 0;
    }

    method Next() returns (r: Option<StorageRecord>)
      modifies this`position
      ensures old(position) >= |records| ==> r == None && position == old(position)
      ensures old(position) < |records| ==> r == Some(records[old(position)]) && position == old(position) + 1
    {
      if position >= |records| {
        return None;
      }
      var record := records[position];
      position := position + 1;
      r := Some(record);
    }
  }
}
