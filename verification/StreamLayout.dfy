/** Where a stream lives in the two stores: its metadata, its reserved block, and its records. */
module StreamLayout {
  import opened Common
  import opened ByteOrder
  import opened BigEndian
  import opened Key
  import opened InMemory
  import opened Names
  import opened Sequence
  import opened StreamRecord

  function BlockKey(basinId: u128, streamId: u128): (k: Bytes)
    ensures |k| == 34
  {
    [RECORD_SEQUENCE_NUMBER_PREFIX_KEY, SEQ_STREAM_PREFIX_KEY] + U128Bytes(basinId) + U128Bytes(streamId)
  }

  function RecordKey(basinId: u128, streamId: u128, seqNum: u64): (k: Bytes)
    ensures |k| == 41
  {
    [RECORD_STREAM_RECORD_PREFIX_KEY] + U128Bytes(basinId) + U128Bytes(streamId) + U64Bytes(seqNum)
  }

  function MetadataPrefix(basinId: u128): (k: Bytes)
    ensures |k| == 17
  {
    [META_STREAM_PREFIX_KEY] + U128Bytes(basinId)
  }

  function MetadataKey(basinId: u128, name: Name): Bytes {
    MetadataPrefix(basinId) + name
  }

  datatype StreamMetadata = StreamMetadata(basinId: u128, streamId: u128) {
    function Encoded(): (b: Bytes)
      ensures |b| == 32
    {
      U128Bytes(basinId) + U128Bytes(streamId)
    }

    method Serialise() returns (buf: Bytes)
      ensures buf == Encoded()
    {
      buf := [];
      buf := buf + U128Bytes(basinId);
      buf := buf + U128Bytes(streamId);
    }
  }

  function DecodeMetadata(data: Bytes): (r: Option<StreamMetadata>)
    ensures r.None? <==> |data| < 32
  {
    if |data| < 32 then None else Some(StreamMetadata(ReadU128(data[0..16]), ReadU128(data[16..32])))
  }

  lemma MetadataRoundTrip(m: StreamMetadata, trailing: Bytes)
    ensures DecodeMetadata(m.Encoded() + trailing) == Some(m)
    ensures Decode(m.Encoded()[..16]) == m.basinId && Decode(m.Encoded()[16..]) == m.streamId
  {
    var data := m.Encoded() + trailing;
    assert data[0..16] == U128Bytes(m.basinId) && data[16..32] == U128Bytes(m.streamId);
    U128RoundTrip(m.basinId);
    U128RoundTrip(m.streamId);
  }

  lemma MetadataReencodes(data: Bytes)
    requires |data| >= 32
    ensures DecodeMetadata(data).value.Encoded() == data[..32]
  {
    EncodeDecode(data[0..16]);
    EncodeDecode(data[16..32]);
    assert data[..32] == data[0..16] + data[16..32];
  }

  // Keys

  lemma HeadsDecide(h: Bytes, a: Bytes, x: Bytes, b: Bytes, y: Bytes)
    requires |a| == |b|
    ensures Less(h + a + x, h + b + y) <==> Less(a, b) || (a == b && Less(x, y))
    ensures h + a + x == h + b + y <==> a == b && x == y
  {
    assert h + a + x == h + (a + x) && h + b + y == h + (b + y);
    LessAfterPrefix(h, a + x, b + y);
    LessOfEqualLengthHeads(a, x, b, y);
    if h + a + x == h + b + y {
      assert a + x == (h + a + x)[|h|..] && b + y == (h + b + y)[|h|..];
      assert a == (a + x)[..|a|] && b == (b + y)[..|a|] && x == (a + x)[|a|..] && y == (b + y)[|a|..];
    }
  }

  /** Byte order of record keys is the lexicographic order of (basin, stream, number), and keys determine all three. */
  lemma RecordKeyIsOrderEmbedding(b: u128, s: u128, q: u64, b': u128, s': u128, q': u64)
    ensures Less(RecordKey(b, s, q), RecordKey(b', s', q')) <==> b < b' || (b == b' && (s < s' || (s == s' && q < q')))
    ensures RecordKey(b, s, q) == RecordKey(b', s', q') <==> b == b' && s == s' && q == q'
  {
    var t := [RECORD_STREAM_RECORD_PREFIX_KEY];
    var tail, tail' := U128Bytes(s) + U64Bytes(q), U128Bytes(s') + U64Bytes(q');
    assert RecordKey(b, s, q) == t + U128Bytes(b) + tail;
    assert RecordKey(b', s', q') == t + U128Bytes(b') + tail';
    HeadsDecide(t, U128Bytes(b), tail, U128Bytes(b'), tail');
    assert [] + U128Bytes(s) + U64Bytes(q) == tail && [] + U128Bytes(s') + U64Bytes(q') == tail';
    HeadsDecide([], U128Bytes(s), U64Bytes(q), U128Bytes(s'), U64Bytes(q'));
    U128Order(b, b');
    U128Order(s, s');
    U64Order(q, q');
  }

  lemma BlockKeyIsInjective(b: u128, s: u128, b': u128, s': u128)
    ensures BlockKey(b, s) == BlockKey(b', s') <==> b == b' && s == s'
    ensures Less(BlockKey(b, s), BlockKey(b', s')) <==> b < b' || (b == b' && s < s')
  {
    var t := [RECORD_SEQUENCE_NUMBER_PREFIX_KEY, SEQ_STREAM_PREFIX_KEY];
    HeadsDecide(t, U128Bytes(b), U128Bytes(s), U128Bytes(b'), U128Bytes(s'));
    U128Order(b, b');
    U128Order(s, s');
  }

  lemma RecordKeyIsNoBlockKey(b: u128, s: u128, q: u64, b': u128, s': u128)
    ensures RecordKey(b, s, q) != BlockKey(b', s')
  {
    assert RecordKey(b, s, q)[0] == 3 && BlockKey(b', s')[0] == 1;
  }

  lemma MetadataKeyIsInjective(b: u128, n: Name, b': u128, n': Name)
    ensures MetadataKey(b, n) == MetadataKey(b', n') <==> b == b' && n == n'
  {
    HeadsDecide([META_STREAM_PREFIX_KEY], U128Bytes(b), n, U128Bytes(b'), n');
    U128Order(b, b');
  }

  // What a record store holds for one stream

  ghost function StoredBlock(tree: Tree, basinId: u128, streamId: u128): Option<SeqBlock> {
    var k := BlockKey(basinId, streamId);
    if k in tree && DeserializeBlock(tree[k]).Ok? then Some(DeserializeBlock(tree[k]).value) else None
  }

  ghost function StoredRecords(tree: Tree, basinId: u128, streamId: u128): map<u64, Bytes> {
    map q: u64 | 0 <= q < U64_SIZE && RecordKey(basinId, streamId, q) in tree && |tree[RecordKey(basinId, streamId, q)]| >= 8
      :: tree[RecordKey(basinId, streamId, q)][8..]
  }

  /** Every value kept for the stream decodes, and records carry the number of their key. */
  ghost predicate WellFormed(tree: Tree, basinId: u128, streamId: u128) {
    && (BlockKey(basinId, streamId) in tree ==> DeserializeBlock(tree[BlockKey(basinId, streamId)]).Ok?)
    && forall q: u64 | RecordKey(basinId, streamId, q) in tree ::
         var r := Deserialise(tree[RecordKey(basinId, streamId, q)]);
         r.Ok? && r.value.seqNum == q
  }

  ghost predicate SameStream(tree: Tree, tree': Tree, basinId: u128, streamId: u128) {
    && StoredBlock(tree, basinId, streamId) == StoredBlock(tree', basinId, streamId)
    && StoredRecords(tree, basinId, streamId) == StoredRecords(tree', basinId, streamId)
    && (WellFormed(tree, basinId, streamId) <==> WellFormed(tree', basinId, streamId))
  }

  ghost predicate Agree(tree: Tree, tree': Tree, k: Bytes) {
    (k in tree <==> k in tree') && (k in tree ==> tree[k] == tree'[k])
  }

  ghost predicate RecordsAgree(tree: Tree, tree': Tree, b: u128, s: u128) {
    forall q: u64 :: Agree(tree, tree', RecordKey(b, s, q))
  }

  lemma SameRecords(tree: Tree, tree': Tree, b: u128, s: u128)
    requires RecordsAgree(tree, tree', b, s)
    ensures StoredRecords(tree, b, s) == StoredRecords(tree', b, s)
  {
    var m, m' := StoredRecords(tree, b, s), StoredRecords(tree', b, s);
    forall q: u64 ensures (q in m <==> q in m') && (q in m ==> m[q] == m'[q]) {
      assert Agree(tree, tree', RecordKey(b, s, q));
    }
    assert m.Keys == m'.Keys;
  }

  lemma SameWellFormed(tree: Tree, tree': Tree, b: u128, s: u128)
    requires RecordsAgree(tree, tree', b, s) && WellFormed(tree, b, s)
    requires BlockKey(b, s) in tree' ==> DeserializeBlock(tree'[BlockKey(b, s)]).Ok?
    ensures WellFormed(tree', b, s)
  {
    forall q: u64 | RecordKey(b, s, q) in tree'
      ensures var r := Deserialise(tree'[RecordKey(b, s, q)]); r.Ok? && r.value.seqNum == q
    {
      assert Agree(tree, tree', RecordKey(b, s, q));
    }
  }

  lemma BlockWritten(tree: Tree, b: u128, s: u128, block: SeqBlock)
    ensures var tree' := tree[BlockKey(b, s) := SerialiseBlock(block)];
            && StoredBlock(tree', b, s) == Some(block)
            && StoredRecords(tree', b, s) == StoredRecords(tree, b, s)
            && (WellFormed(tree, b, s) ==> WellFormed(tree', b, s))
  {
    var tree' := tree[BlockKey(b, s) := SerialiseBlock(block)];
    BlockRoundTrip(block, []);
    assert SerialiseBlock(block) + [] == SerialiseBlock(block);
    forall q: u64 ensures Agree(tree, tree', RecordKey(b, s, q)) {
      RecordKeyIsNoBlockKey(b, s, q, b, s);
    }
    SameRecords(tree, tree', b, s);
    if WellFormed(tree, b, s) {
      SameWellFormed(tree, tree', b, s);
    }
  }

  lemma RecordWritten(tree: Tree, b: u128, s: u128, r: Record)
    ensures var tree' := tree[RecordKey(b, s, r.seqNum) := r.Encoded()];
            && StoredBlock(tree', b, s) == StoredBlock(tree, b, s)
            && StoredRecords(tree', b, s) == StoredRecords(tree, b, s)[r.seqNum := r.data]
            && (WellFormed(tree, b, s) ==> WellFormed(tree', b, s))
  {
    RecordKeyIsNoBlockKey(b, s, r.seqNum, b, s);
    RecordsAfterWrite(tree, b, s, r);
    if WellFormed(tree, b, s) {
      WellFormedAfterWrite(tree, b, s, r);
    }
  }

  lemma RecordsAfterWrite(tree: Tree, b: u128, s: u128, r: Record)
    ensures StoredRecords(tree[RecordKey(b, s, r.seqNum) := r.Encoded()], b, s) ==
            StoredRecords(tree, b, s)[r.seqNum := r.data]
  {
    var key, v := RecordKey(b, s, r.seqNum), r.Encoded();
    var m, m' := StoredRecords(tree, b, s)[r.seqNum := r.data], StoredRecords(tree[key := v], b, s);
    assert v[8..] == r.data;
    forall q: u64 ensures (q in m <==> q in m') && (q in m ==> m[q] == m'[q]) {
      RecordKeyIsOrderEmbedding(b, s, q, b, s, r.seqNum);
      if q != r.seqNum {
        assert Agree(tree, tree[key := v], RecordKey(b, s, q));
      }
    }
    assert m.Keys == m'.Keys;
  }

  lemma WellFormedAfterWrite(tree: Tree, b: u128, s: u128, r: Record)
    requires WellFormed(tree, b, s)
    ensures WellFormed(tree[RecordKey(b, s, r.seqNum) := r.Encoded()], b, s)
  {
    var key, v := RecordKey(b, s, r.seqNum), r.Encoded();
    RecordRoundTrip(r);
    RecordKeyIsNoBlockKey(b, s, r.seqNum, b, s);
    forall q: u64 | RecordKey(b, s, q) in tree[key := v]
      ensures var d := Deserialise(tree[key := v][RecordKey(b, s, q)]); d.Ok? && d.value.seqNum == q
    {
      RecordKeyIsOrderEmbedding(b, s, q, b, s, r.seqNum);
    }
  }

  lemma UntouchedStream(tree: Tree, tree': Tree, b: u128, s: u128)
    requires Agree(tree, tree', BlockKey(b, s)) && RecordsAgree(tree, tree', b, s)
    ensures SameStream(tree, tree', b, s)
  {
    SameRecords(tree, tree', b, s);
    if WellFormed(tree, b, s) {
      SameWellFormed(tree, tree', b, s);
    }
    if WellFormed(tree', b, s) {
      assert RecordsAgree(tree', tree, b, s) by {
        forall q: u64 ensures Agree(tree', tree, RecordKey(b, s, q)) {
          assert Agree(tree, tree', RecordKey(b, s, q));
        }
      }
      SameWellFormed(tree', tree, b, s);
    }
  }

  /** A write under one stream's keys leaves every other stream's block and records as they were. */
  lemma OtherStreamsUntouched(tree: Tree, k: Bytes, v: Bytes, b: u128, s: u128, b': u128, s': u128)
    requires k == BlockKey(b, s) || exists q: u64 :: k == RecordKey(b, s, q)
    requires (b, s) != (b', s')
    ensures SameStream(tree, tree[k := v], b', s')
  {
    if k == BlockKey(b, s) {
      BlockKeyIsInjective(b, s, b', s');
      forall q: u64 ensures Agree(tree, tree[k := v], RecordKey(b', s', q)) {
        RecordKeyIsNoBlockKey(b', s', q, b, s);
      }
    } else {
      var q: u64 :| k == RecordKey(b, s, q);
      RecordKeyIsNoBlockKey(b, s, q, b', s');
      forall q': u64 ensures Agree(tree, tree[k := v], RecordKey(b', s', q')) {
        RecordKeyIsOrderEmbedding(b, s, q, b', s', q');
      }
    }
    UntouchedStream(tree, tree[k := v], b', s');
  }
}
