/** Basins: a name bound to an identifier in the metadata store. */
module Basins {
  import opened Common
  import opened ByteOrder
  import opened BigEndian
  import opened Storage
  import opened Key
  import opened InMemory
  import opened Names
  import opened Scan
  import SL = StreamLayout

  datatype BasinError = DeserialiseError | StorageError(error: StorageError)

  datatype Basin = Basin(basinId: u128, basinName: Name)

  datatype BasinView = BasinView(basinName: Name)

  const METADATA_PREFIX: Bytes := [META_BASIN_PREFIX_KEY]

  function MetadataKey(name: Name): Bytes {
    METADATA_PREFIX + name
  }

  function DeserialiseBasinId(data: Bytes): (r: Result<u128, BasinError>)
    ensures r.Err? <==> |data| < 16
  {
    if |data| < 16 then Err(DeserialiseError) else Ok(ReadU128(data[0..16]))
  }

  // The bindings a metadata store holds

  /** The identifier bound to a basin name. */
  ghost function BoundBasin(tree: Tree, name: Name): Option<u128> {
    if MetadataKey(name) in tree && DeserialiseBasinId(tree[MetadataKey(name)]).Ok?
    then Some(DeserialiseBasinId(tree[MetadataKey(name)]).value) else None
  }

  /** The identifiers bound to a stream name within a basin. */
  ghost function BoundStream(tree: Tree, basinId: u128, name: Name): Option<SL.StreamMetadata> {
    if SL.MetadataKey(basinId, name) in tree then SL.DecodeMetadata(tree[SL.MetadataKey(basinId, name)]) else None
  }

  /** Binding a basin affects that basin's name alone. */
  lemma BasinBound(tree: Tree, name: Name, id: u128)
    ensures var tree' := tree[MetadataKey(name) := U128Bytes(id)];
            && BoundBasin(tree', name) == Some(id)
            && (forall n: Name | n != name :: BoundBasin(tree', n) == BoundBasin(tree, n))
            && forall b: u128, n: Name :: BoundStream(tree', b, n) == BoundStream(tree, b, n)
  {
    U128RoundTrip(id);
    assert U128Bytes(id)[0..16] == U128Bytes(id);
    forall n: Name ensures MetadataKey(n) == MetadataKey(name) <==> n == name {
      assert MetadataKey(n)[1..] == n && MetadataKey(name)[1..] == name;
    }
    forall b: u128, n: Name ensures SL.MetadataKey(b, n) != MetadataKey(name) {
      assert SL.MetadataKey(b, n)[0] == 1 && MetadataKey(name)[0] == 2;
    }
  }

  /** Binding a stream affects that stream's name in that basin alone. */
  lemma StreamBound(tree: Tree, basinId: u128, name: Name, m: SL.StreamMetadata)
    ensures var tree' := tree[SL.MetadataKey(basinId, name) := m.Encoded()];
            && BoundStream(tree', basinId, name) == Some(m)
            && (forall b: u128, n: Name | (b, n) != (basinId, name) :: BoundStream(tree', b, n) == BoundStream(tree, b, n))
            && forall n: Name :: BoundBasin(tree', n) == BoundBasin(tree, n)
  {
    SL.MetadataRoundTrip(m, []);
    assert m.Encoded() + [] == m.Encoded();
    forall b: u128, n: Name ensures SL.MetadataKey(b, n) == SL.MetadataKey(basinId, name) <==> b == basinId && n == name {
      SL.MetadataKeyIsInjective(b, n, basinId, name);
    }
    forall n: Name ensures MetadataKey(n) != SL.MetadataKey(basinId, name) {
      assert SL.MetadataKey(basinId, name)[0] == 1 && MetadataKey(n)[0] == 2;
    }
  }

  method ConstructMetadataKey(name: Name) returns (k: Bytes)
    ensures k == MetadataKey(name)
  {
    var builder := new BytesBuilder();
    builder.AddU8(META_BASIN_PREFIX_KEY);
    builder.PutStr(name);
    k := builder.Build();
  }

  method ConstructMetadataPrefix() returns (k: Bytes)
    ensures k == METADATA_PREFIX
  {
    var builder := new BytesBuilder();
    builder.AddU8(META_BASIN_PREFIX_KEY);
    k := builder.Build();
  }

  /** `id` is the freshly drawn identifier. */
  method New(metaStorage: InMemoryStorage, name: Name, id: u128, fault: Option<StorageError>)
    returns (r: Result<Basin, BasinError>)
    modifies metaStorage
    ensures fault.Some? ==> r == Err(StorageError(fault.value)) && metaStorage.tree == old(metaStorage.tree)
    ensures fault.None? ==>
              && r == Ok(Basin(id, name))
              && BoundBasin(metaStorage.tree, name) == Some(id)
              && (forall n: Name | n != name :: BoundBasin(metaStorage.tree, n) == old(BoundBasin(metaStorage.tree, n)))
              && forall b: u128, n: Name :: BoundStream(metaStorage.tree, b, n) == old(BoundStream(metaStorage.tree, b, n))
  {
    var key := ConstructMetadataKey(name);
    var builder := new BytesBuilder();
    builder.AddU128(id);
    var value := builder.Build();
    assert value == U128Bytes(id);
    BasinBound(metaStorage.tree, name, id);
    var applied := metaStorage.Apply([StorageRecord(key, value)], fault);
    if applied.Err? {
      return Err(StorageError(applied.error));
    }
    r := Ok(Basin(id, name));
  }

  method Load(metaStorage: InMemoryStorage, name: Name, fault: Option<StorageError>)
    returns (r: Result<Option<Basin>, BasinError>)
    ensures fault.Some? ==> r == Err(StorageError(fault.value))
    ensures fault.None? && MetadataKey(name) !in metaStorage.tree ==> r == Ok(None)
    ensures fault.None? && BoundBasin(metaStorage.tree, name).Some? ==>
              r == Ok(Some(Basin(BoundBasin(metaStorage.tree, name).value, name)))
    ensures fault.None? && MetadataKey(name) in metaStorage.tree && BoundBasin(metaStorage.tree, name).None? ==>
              r == Err(DeserialiseError)
  {
    var key := ConstructMetadataKey(name);
    var found := metaStorage.Get(key, fault);
    match found
    case Err(e) => return Err(StorageError(e));
    case Ok(None) => return Ok(None);
    case Ok(Some(record)) =>
      match DeserialiseBasinId(record.value)
      case Ok(id) => return Ok(Some(Basin(id, name)));
      case Err(e) => return Err(e);
  }

  function NameOf(view: BasinView): Bytes {
    view.basinName
  }

  method List(metaStorage: InMemoryStorage, fault: Option<StorageError>)
    returns (r: Result<seq<BasinView>, BasinError>)
    ensures fault.Some? ==> r == Err(StorageError(fault.value))
    ensures fault.None? ==> (r.Ok? <==> Listable(metaStorage.tree, METADATA_PREFIX, 16))
    ensures fault.None? ==>
              (r.Ok? <==> forall k | k in metaStorage.tree && METADATA_PREFIX <= k ::
                            |metaStorage.tree[k]| >= 16 && ValidUtf8(k[1..]))
    ensures fault.None? && r.Err? ==> r.error == DeserialiseError
    ensures r.Ok? ==> AscendingBy(r.value, NameOf)
    ensures r.Ok? ==> forall n: Name :: BasinView(n) in r.value <==> MetadataKey(n) in metaStorage.tree
  {
    var prefix := ConstructMetadataPrefix();
    var scanned, keys := ScanPrefix(prefix, metaStorage, fault);
    if scanned.Err? {
      return Err(StorageError(scanned.error));
    }
    var iter := scanned.value;
    ghost var names: seq<Name> := [];
    var basins: seq<BasinView> := [];
    while true
      invariant |basins| == |names| == iter.position <= |keys|
      invariant Decoded(metaStorage.tree, prefix, 16, keys, names)
      invariant forall i | 0 <= i < |names| :: basins[i] == BasinView(names[i])
      decreases |keys| - iter.position
    {
      var next := iter.Next();
      if next.None? {
        break;
      }
      ghost var i := iter.position - 1;
      assert keys[i] in metaStorage.tree && prefix <= keys[i];
      var suffix := next.value.key[|prefix|..];
      if DeserialiseBasinId(next.value.value).Err? || !ValidUtf8(suffix) {
        return Err(DeserialiseError);
      }
      basins := basins + [BasinView(suffix)];
      names := names + [suffix];
    }
    NamesAreExact(metaStorage.tree, prefix, 16, keys, iter.records, names);
    SortingAscendingIsNoOp(basins, NameOf);
    basins := SortBy(basins, NameOf);
    assert forall n: Name :: BasinView(n) in basins <==> n in names;
    r := Ok(basins);
  }
}
