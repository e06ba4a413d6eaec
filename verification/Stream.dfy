/** A stream opened by its owner: creation, reload, append and read against the stores, and the listing of a basin. */
module Stream {
  import opened Common
  import opened ByteOrder
  import opened BigEndian
  import opened Storage
  import opened Key
  import opened InMemory
  import opened Names
  import opened Scan
  import opened Sequence
  import opened StreamRecord
  import opened StreamLayout
  import L = LogMachine

  datatype StreamError = StreamDoesNotExist(name: Name) | DeserialiseError | StorageError(error: StorageError)

  datatype AppendResult = AppendResult(record: Record, nextSeqNum: u64)

  datatype StreamView = StreamView(streamName: Name)

  /** The stream as the crash-safety machine sees it on disk, with no owner. */
  ghost function OnDisk(tree: Tree, basinId: u128, streamId: u128): L.Log {
    L.Log(true, StoredBlock(tree, basinId, streamId), StoredRecords(tree, basinId, streamId), None)
  }

  class Stream {
    const allocator: SequenceAllocator
    const metadata: StreamMetadata
    const recordStorage: InMemoryStorage

    constructor (allocator: SequenceAllocator, metadata: StreamMetadata, recordStorage: InMemoryStorage)
      ensures this.allocator == allocator && this.metadata == metadata && this.recordStorage == recordStorage
    {
      this.allocator := allocator;
      this.metadata := metadata;
      this.recordStorage := recordStorage;
    }

    ghost function LogView(): L.Log
      reads allocator, recordStorage
    {
      OnDisk(recordStorage.tree, metadata.basinId, metadata.streamId).(live := Some(allocator.View()))
    }

    /** One append is one step of the crash-safety machine; a failed write leaves the disk alone but not the allocator;
        other streams are not touched. */
    method Append(data: Bytes, fault: Option<StorageError>) returns (r: Result<AppendResult, StreamError>)
      requires 1 <= allocator.currentBlock.blockSize
      modifies allocator, recordStorage
      ensures LogView() == L.Next(old(LogView()), L.Append(data, fault.None?))
      ensures fault.Some? ==> r == Err(StorageError(fault.value)) && recordStorage.tree == old(recordStorage.tree)
      ensures fault.None? ==>
                r == Ok(AppendResult(Record(old(allocator.nextSequenceNumber), data), allocator.nextSequenceNumber))
      // Failed or not, the append has used up one number, and the block if that was its last.
      ensures old(allocator.View().InBlock()) && old(allocator.currentBlock).start + 2 * old(allocator.currentBlock).blockSize < U64_SIZE ==>
                && allocator.nextSequenceNumber == old(allocator.nextSequenceNumber) + 1
                && allocator.currentBlock.blockSize == old(allocator.currentBlock).blockSize
                && allocator.currentBlock.start ==
                   old(allocator.currentBlock).start +
                   if allocator.nextSequenceNumber < old(allocator.currentBlock).start + old(allocator.currentBlock).blockSize then 0
                   else old(allocator.currentBlock).blockSize
      ensures old(WellFormed(recordStorage.tree, metadata.basinId, metadata.streamId)) ==>
                WellFormed(recordStorage.tree, metadata.basinId, metadata.streamId)
      ensures forall b: u128, s: u128 | (b, s) != (metadata.basinId, metadata.streamId) ::
                SameStream(old(recordStorage.tree), recordStorage.tree, b, s)
    {
      var records: seq<StorageRecord> := [];
      var seqNum, block := allocator.Allocate(1);
      if block.Some? {
        var blockKey := ConstructSequenceBlockKey(metadata.basinId, metadata.streamId);
        records := records + [StorageRecord(blockKey, SerialiseBlock(block.value))];
      }
      var writeRecord := Record(seqNum, data);
      var key := ConstructStreamRecordKey(metadata.basinId, metadata.streamId, seqNum);
      var value := writeRecord.Serialise();
      records := records + [StorageRecord(key, value)];

      ghost var before := recordStorage.tree;
      BatchOfAppend(before, metadata.basinId, metadata.streamId, block, writeRecord);
      var applied := recordStorage.Apply(records, fault);
      if applied.Err? {
        return Err(StorageError(applied.error));
      }
      r := Ok(AppendResult(writeRecord, allocator.nextSequenceNumber));
    }

    method Read(seqNum: u64, fault: Option<StorageError>) returns (r: Result<Option<Record>, StreamError>)
      ensures fault.Some? ==> r == Err(StorageError(fault.value))
      ensures fault.None? && WellFormed(recordStorage.tree, metadata.basinId, metadata.streamId) ==>
                r == Ok(if seqNum in LogView().stored then Some(Record(seqNum, LogView().stored[seqNum])) else None)
      ensures fault.None? ==>
                var key := RecordKey(metadata.basinId, metadata.streamId, seqNum);
                r == if key !in recordStorage.tree then Ok(None)
                     else if Deserialise(recordStorage.tree[key]).Err? then Err(DeserialiseError)
                     else Ok(Some(Deserialise(recordStorage.tree[key]).value))
    {
      var key := ConstructStreamRecordKey(metadata.basinId, metadata.streamId, seqNum);
      var result := recordStorage.Get(key, fault);
      match result
      case Err(e) => return Err(StorageError(e));
      case Ok(None) => return Ok(None);
      case Ok(Some(found)) =>
        match Deserialise(found.value)
        case Ok(record) => return Ok(Some(record));
        case Err(_) => return Err(DeserialiseError);
    }

    method NextSeqNum() returns (n: u64)
      ensures n == LogView().live.value.next
    {
      n := allocator.nextSequenceNumber;
    }
  }

  // Keys are assembled by the builder

  method ConstructSequenceBlockKey(basinId: u128, streamId: u128) returns (k: Bytes)
    ensures k == BlockKey(basinId, streamId)
  {
    var builder := new BytesBuilder();
    builder.AddU8(RECORD_SEQUENCE_NUMBER_PREFIX_KEY);
    builder.AddU8(SEQ_STREAM_PREFIX_KEY);
    builder.AddU128(basinId);
    builder.AddU128(streamId);
    k := builder.Build();
  }

  method ConstructStreamRecordKey(basinId: u128, streamId: u128, seqNum: u64) returns (k: Bytes)
    ensures k == RecordKey(basinId, streamId, seqNum)
  {
    var builder := new BytesBuilder();
    builder.AddU8(RECORD_STREAM_RECORD_PREFIX_KEY);
    builder.AddU128(basinId);
    builder.AddU128(streamId);
    builder.AddU64(seqNum);
    k := builder.Build();
  }

  method ConstructMetadataKey(basinId: u128, name: Name) returns (k: Bytes)
    ensures k == MetadataKey(basinId, name)
  {
    var builder := new BytesBuilder();
    builder.AddU8(META_STREAM_PREFIX_KEY);
    builder.AddU128(basinId);
    builder.PutStr(name);
    k := builder.Build();
  }

  method ConstructMetadataPrefix(basinId: u128) returns (k: Bytes)
    ensures k == MetadataPrefix(basinId)
  {
    var builder := new BytesBuilder();
    builder.AddU8(META_STREAM_PREFIX_KEY);
    builder.AddU128(basinId);
    k := builder.Build();
  }

  /** The batch of one append, with or without a block, has the effect of the machine's successful append. */
  lemma BatchOfAppend(tree: Tree, b: u128, s: u128, block: Option<SeqBlock>, r: Record)
    ensures var head := if block.Some? then [StorageRecord(BlockKey(b, s), SerialiseBlock(block.value))] else [];
            var tree' := Applied(tree, head + [StorageRecord(RecordKey(b, s, r.seqNum), r.Encoded())]);
            && StoredBlock(tree', b, s) == (if block.Some? then block else StoredBlock(tree, b, s))
            && StoredRecords(tree', b, s) == StoredRecords(tree, b, s)[r.seqNum := r.data]
            && (WellFormed(tree, b, s) ==> WellFormed(tree', b, s))
            && forall b': u128, s': u128 | (b', s') != (b, s) :: SameStream(tree, tree', b', s')
  {
    var head := if block.Some? then [StorageRecord(BlockKey(b, s), SerialiseBlock(block.value))] else [];
    var last := StorageRecord(RecordKey(b, s, r.seqNum), r.Encoded());
    AppliedSnoc(tree, head, last);
    var mid := Applied(tree, head);
    if block.Some? {
      assert head[1..] == [];
      BlockWritten(tree, b, s, block.value);
    }
    RecordWritten(mid, b, s, r);
    forall b': u128, s': u128 | (b', s') != (b, s) ensures SameStream(tree, mid[last.key := last.value], b', s') {
      if block.Some? {
        OtherStreamsUntouched(tree, head[0].key, head[0].value, b, s, b', s');
      }
      OtherStreamsUntouched(mid, last.key, last.value, b, s, b', s');
    }
  }

  /** `streamId` is the freshly drawn identifier. Metadata is written first, the default block second; if the second
      write fails the stream exists without a block. */
  method New(basinId: u128, name: Name, streamId: u128, metaStorage: InMemoryStorage, recordStorage: InMemoryStorage,
             metaFault: Option<StorageError>, recordFault: Option<StorageError>)
    returns (r: Result<Stream, StreamError>)
    requires metaStorage != recordStorage
    modifies metaStorage, recordStorage
    ensures metaFault.Some? ==>
              && r == Err(StorageError(metaFault.value))
              && metaStorage.tree == old(metaStorage.tree) && recordStorage.tree == old(recordStorage.tree)
    ensures metaFault.None? ==>
              metaStorage.tree ==
              old(metaStorage.tree)[MetadataKey(basinId, name) := StreamMetadata(basinId, streamId).Encoded()]
    ensures metaFault.None? && recordFault.Some? ==>
              r == Err(StorageError(recordFault.value)) && recordStorage.tree == old(recordStorage.tree)
    ensures metaFault.None? && recordFault.None? ==>
              && r.Ok? && fresh(r.value) && fresh(r.value.allocator)
              && r.value.metadata == StreamMetadata(basinId, streamId) && r.value.recordStorage == recordStorage
              && r.value.allocator.currentBlock == SeqBlock(0, 4096) && r.value.allocator.nextSequenceNumber == 0
              && recordStorage.tree ==
                 old(recordStorage.tree)[BlockKey(basinId, streamId) := SerialiseBlock(SeqBlock(0, 4096))]
    ensures r.Ok? && L.Enabled(old(OnDisk(recordStorage.tree, basinId, streamId)), L.CreateBlock) ==>
              r.value.LogView() == L.Next(old(OnDisk(recordStorage.tree, basinId, streamId)), L.CreateBlock)
    ensures forall b: u128, s: u128 | (b, s) != (basinId, streamId) ::
              SameStream(old(recordStorage.tree), recordStorage.tree, b, s)
  {
    var allocator := new SequenceAllocator.Default();
    var metadata := StreamMetadata(basinId, streamId);
    var metaKey := ConstructMetadataKey(basinId, name);
    var metaValue := metadata.Serialise();
    var written := metaStorage.Apply([StorageRecord(metaKey, metaValue)], metaFault);
    if written.Err? {
      return Err(StorageError(written.error));
    }
    var blockKey := ConstructSequenceBlockKey(basinId, streamId);
    ghost var before := recordStorage.tree;
    BlockWritten(before, basinId, streamId, allocator.currentBlock);
    forall b: u128, s: u128 | (b, s) != (basinId, streamId)
      ensures SameStream(before, before[blockKey := SerialiseBlock(allocator.currentBlock)], b, s)
    {
      OtherStreamsUntouched(before, blockKey, SerialiseBlock(allocator.currentBlock), basinId, streamId, b, s);
    }
    written := recordStorage.Apply([StorageRecord(blockKey, SerialiseBlock(allocator.currentBlock))], recordFault);
    if written.Err? {
      return Err(StorageError(written.error));
    }
    var stream := new Stream(allocator, metadata, recordStorage);
    r := Ok(stream);
  }

  method LoadMetadata(basinId: u128, name: Name, metaStorage: InMemoryStorage, fault: Option<StorageError>)
    returns (r: Result<StreamMetadata, StreamError>)
    ensures var k := MetadataKey(basinId, name);
            r == if fault.Some? then Err(StorageError(fault.value))
                 else if k !in metaStorage.tree then Err(StreamDoesNotExist(name))
                 else if |metaStorage.tree[k]| < 32 then Err(DeserialiseError)
                 else Ok(DecodeMetadata(metaStorage.tree[k]).value)
  {
    var key := ConstructMetadataKey(basinId, name);
    var found := metaStorage.Get(key, fault);
    match found
    case Err(e) => return Err(StorageError(e));
    case Ok(None) => return Err(StreamDoesNotExist(name));
    case Ok(Some(record)) =>
      match DecodeMetadata(record.value)
      case Some(metadata) => return Ok(metadata);
      case None => return Err(DeserialiseError);
  }

  ghost predicate SoundMetadata(metaTree: Tree, basinId: u128, name: Name) {
    MetadataKey(basinId, name) in metaTree && |metaTree[MetadataKey(basinId, name)]| >= 32
  }

  ghost function BlockKeyOf(metaTree: Tree, basinId: u128, name: Name): Bytes
    requires SoundMetadata(metaTree, basinId, name)
  {
    BlockKey(basinId, DecodeMetadata(metaTree[MetadataKey(basinId, name)]).value.streamId)
  }

  /** Reload: a stream with sound metadata is resumed by the machine's `Load`, from whatever block is stored. */
  method Load(basinId: u128, name: Name, metaStorage: InMemoryStorage, recordStorage: InMemoryStorage,
              metaFault: Option<StorageError>, recordFault: Option<StorageError>)
    returns (r: Result<Stream, StreamError>)
    ensures r.Ok? <==>
            && metaFault.None? && recordFault.None?
            && var k := MetadataKey(basinId, name);
            && k in metaStorage.tree && |metaStorage.tree[k]| >= 32
            && var blockKey := BlockKey(basinId, DecodeMetadata(metaStorage.tree[k]).value.streamId);
               (blockKey in recordStorage.tree ==> |recordStorage.tree[blockKey]| >= BLOCK_CAPACITY)
    // Only a missing key says that the stream does not exist; every other failure is told apart from it.
    ensures metaFault.Some? ==> r == Err(StorageError(metaFault.value))
    ensures r == Err(StreamDoesNotExist(name)) <==> metaFault.None? && MetadataKey(basinId, name) !in metaStorage.tree
    ensures metaFault.None? && MetadataKey(basinId, name) in metaStorage.tree ==>
              (|metaStorage.tree[MetadataKey(basinId, name)]| < 32 ==> r == Err(DeserialiseError))
    ensures metaFault.None? && SoundMetadata(metaStorage.tree, basinId, name) && recordFault.Some? ==>
              r == Err(StorageError(recordFault.value))
    ensures metaFault.None? && SoundMetadata(metaStorage.tree, basinId, name) && recordFault.None? ==>
              var blockKey := BlockKeyOf(metaStorage.tree, basinId, name);
              blockKey in recordStorage.tree && |recordStorage.tree[blockKey]| < BLOCK_CAPACITY ==> r == Err(DeserialiseError)
    // The allocator goes on behind the stored block, or from 0 in the default block if none is stored.
    ensures r.Ok? ==>
              var blockKey := BlockKeyOf(metaStorage.tree, basinId, name);
              if blockKey in recordStorage.tree
              then var b := DeserializeBlock(recordStorage.tree[blockKey]).value;
                   r.value.allocator.currentBlock == b &&
                   r.value.allocator.nextSequenceNumber == (b.start + b.blockSize) % U64_SIZE
              else r.value.allocator.currentBlock == SeqBlock(0, 4096) && r.value.allocator.nextSequenceNumber == 0
    ensures r.Ok? ==>
              && fresh(r.value) && fresh(r.value.allocator) && r.value.recordStorage == recordStorage
              && r.value.metadata == DecodeMetadata(metaStorage.tree[MetadataKey(basinId, name)]).value
    ensures r.Ok? && r.value.metadata.basinId == basinId ==>
              r.value.LogView() == L.Next(OnDisk(recordStorage.tree, basinId, r.value.metadata.streamId), L.Load)
  {
    var loaded := LoadMetadata(basinId, name, metaStorage, metaFault);
    if loaded.Err? {
      return Err(loaded.error);
    }
    var metadata := loaded.value;
    var blockKey := ConstructSequenceBlockKey(basinId, metadata.streamId);
    var seqBlock := recordStorage.Get(blockKey, recordFault);
    if seqBlock.Err? {
      return Err(StorageError(seqBlock.error));
    }
    var allocator: SequenceAllocator;
    if seqBlock.value.Some? {
      var block := DeserializeBlock(seqBlock.value.value.value);
      if block.Err? {
        return Err(DeserialiseError);
      }
      allocator := new SequenceAllocator(block.value);
    } else {
      allocator := new SequenceAllocator.Default();
    }
    var stream := new Stream(allocator, metadata, recordStorage);
    r := Ok(stream);
  }

  // Listing

  function NameOf(view: StreamView): Bytes {
    view.streamName
  }

  /** Listing succeeds exactly when every entry under the basin's prefix decodes, and then returns precisely the names
      that have metadata in this basin, strictly ascending and so without duplicates. */
  method List(basinId: u128, metaStorage: InMemoryStorage, fault: Option<StorageError>)
    returns (r: Result<seq<StreamView>, StreamError>)
    ensures fault.Some? ==> r == Err(StorageError(fault.value))
    ensures fault.None? ==> (r.Ok? <==> Listable(metaStorage.tree, MetadataPrefix(basinId), 32))
    ensures fault.None? ==>
              (r.Ok? <==> forall k | k in metaStorage.tree && MetadataPrefix(basinId) <= k ::
                            |metaStorage.tree[k]| >= 32 && ValidUtf8(k[17..]))
    ensures fault.None? && r.Err? ==> r.error == DeserialiseError
    ensures r.Ok? ==> AscendingBy(r.value, NameOf)
    ensures r.Ok? ==> forall n: Name :: StreamView(n) in r.value <==> MetadataKey(basinId, n) in metaStorage.tree
  {
    var prefix := ConstructMetadataPrefix(basinId);
    var scanned, keys := ScanPrefix(prefix, metaStorage, fault);
    if scanned.Err? {
      return Err(StorageError(scanned.error));
    }
    var iter := scanned.value;
    ghost var names: seq<Name> := [];
    var streams: seq<StreamView> := [];
    while true
      invariant |streams| == |names| == iter.position <= |keys|
      invariant Decoded(metaStorage.tree, prefix, 32, keys, names)
      invariant forall i | 0 <= i < |names| :: streams[i] == StreamView(names[i])
      decreases |keys| - iter.position
    {
      var next := iter.Next();
      if next.None? {
        break;
      }
      ghost var i := iter.position - 1;
      assert keys[i] in metaStorage.tree && prefix <= keys[i];
      var suffix := next.value.key[|prefix|..];
      if DecodeMetadata(next.value.value).None? || !ValidUtf8(suffix) {
        return Err(DeserialiseError);
      }
      streams := streams + [StreamView(suffix)];
      names := names + [suffix];
    }
    NamesAreExact(metaStorage.tree, prefix, 32, keys, iter.records, names);
    SortingAscendingIsNoOp(streams, NameOf);
    streams := SortBy(streams, NameOf);
    assert forall n: Name :: StreamView(n) in streams <==> n in names;
    r := Ok(streams);
  }
}
