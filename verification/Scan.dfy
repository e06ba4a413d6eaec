/** Scanning the keys under a prefix, and the names those keys end in. */
module Scan {
  import opened Common
  import opened ByteOrder
  import opened Storage
  import opened Key
  import opened InMemory
  import opened Names

  /** `keys` and `records` are what a scan of the keys that extend `prefix` yields. */
  ghost predicate Scanned(tree: Tree, prefix: Bytes, keys: seq<Bytes>, records: seq<StorageRecord>) {
    && |records| == |keys|
    && StrictlyAscending(keys)
    && (forall k :: k in keys <==> k in tree && prefix <= k)
    && (forall i | 0 <= i < |keys| ::
          keys[i] in tree && prefix <= keys[i] && records[i] == StorageRecord(keys[i], tree[keys[i]]))
  }

  method ScanPrefix(prefix: Bytes, storage: InMemoryStorage, fault: Option<StorageError>)
    returns (r: Result<InMemoryIterator, StorageError>, ghost keys: seq<Bytes>)
    ensures fault.Some? ==> r == Err(fault.value)
    ensures fault.None? ==>
              && r.Ok? && fresh(r.value) && r.value.position == 0
              && Scanned(storage.tree, prefix, keys, r.value.records)
  {
    var range := PrefixRange(prefix);
    r := storage.ScanIter(range, fault);
    keys := Ordered(set k | k in storage.tree && range.Contains(k));
    assert forall i | 0 <= i < |keys| :: keys[i] in keys;
  }

  /** Every entry under the prefix has a value of the expected size and ends in a name. */
  ghost predicate Listable(tree: Tree, prefix: Bytes, valueSize: nat) {
    forall k | k in tree && prefix <= k :: |tree[k]| >= valueSize && ValidUtf8(k[|prefix|..])
  }

  /** `names` are what is left of the first keys once the prefix is stripped. */
  ghost predicate Decoded(tree: Tree, prefix: Bytes, valueSize: nat, keys: seq<Bytes>, names: seq<Name>) {
    |names| <= |keys| &&
    forall i | 0 <= i < |names| :: keys[i] in tree && |tree[keys[i]]| >= valueSize && keys[i] == prefix + names[i]
  }

  /** Stripping a shared prefix from ascending keys gives ascending names, one for each key. */
  lemma NamesAreExact(tree: Tree, prefix: Bytes, valueSize: nat, keys: seq<Bytes>, records: seq<StorageRecord>,
                      names: seq<Name>)
    requires Scanned(tree, prefix, keys, records) && Decoded(tree, prefix, valueSize, keys, names)
    requires |names| == |keys|
    ensures StrictlyAscending(names)
    ensures Listable(tree, prefix, valueSize)
    ensures forall n: Name :: n in names <==> prefix + n in tree
  {
    forall i, j | 0 <= i < j < |names| ensures Less(names[i], names[j]) {
      LessAfterPrefix(prefix, names[i], names[j]);
    }
    forall n: Name ensures n in names <==> prefix + n in tree {
      assert (prefix + n)[|prefix|..] == n;
      if prefix + n in tree {
        assert prefix + n in keys;
        var i :| 0 <= i < |keys| && keys[i] == prefix + n;
        assert names[i] == (prefix + names[i])[|prefix|..];
      }
    }
    forall k | k in tree && prefix <= k ensures |tree[k]| >= valueSize && ValidUtf8(k[|prefix|..]) {
      assert k in keys;
      var i :| 0 <= i < |keys| && keys[i] == k;
      assert k[|prefix|..] == names[i];
    }
  }
}
