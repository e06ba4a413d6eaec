/** The byte stores behind the controller: what every step writes, and that the bytes always represent the state. */
module Durability {
  import opened Common
  import BigEndian
  import opened Storage
  import opened InMemory
  import opened Names
  import opened Scan
  import opened Sequence
  import opened StreamRecord
  import opened StreamLayout
  import opened Basins
  import opened Controller
  import CS = ControllerSafety
  import St = Stream
  import L = LogMachine

  // What a step writes, batch by batch

  function MetaBatch(s: State, e: Event): seq<StorageRecord>
    requires Enabled(s, e)
  {
    if !e.Advance? || !e.io.ok then []
    else
      var k := s.tasks[e.t];
      if k.pc.BasinCreate? then [StorageRecord(Basins.MetadataKey(k.basin), BigEndian.U128Bytes(e.io.id))]
      else if k.pc.StreamCreate? then
        var basinId := s.handles[k.pc.h].basinId;
        [StorageRecord(StreamLayout.MetadataKey(basinId, k.stream), StreamMetadata(basinId, e.io.id).Encoded())]
      else []
  }

  function RecordBatch(s: State, e: Event): seq<StorageRecord>
    requires Enabled(s, e)
  {
    if e.Advance? && e.io.ok && s.tasks[e.t].pc.StreamInit? then
      var pc := s.tasks[e.t].pc;
      [StorageRecord(BlockKey(s.handles[pc.h].basinId, pc.streamId), SerialiseBlock(DEFAULT_CURSOR.block))]
    else if e.ActorAppend? && e.ok then
      var actor := s.actors[e.actor];
      var allocation := Allocated(actor.cursor, 1);
      var record := Record(allocation.start, e.data);
      (if allocation.reported.Some?
       then [StorageRecord(BlockKey(actor.key.basinId, actor.key.streamId), SerialiseBlock(allocation.reported.value))]
       else []) +
      [StorageRecord(RecordKey(actor.key.basinId, actor.key.streamId, record.seqNum), record.Encoded())]
    else []
  }

  // Representation

  function Lookup<K, V>(m: map<K, V>, k: K): Option<V> {
    if k in m then Some(m[k]) else None
  }

  /** The key binds a basin name or a stream name of the state. */
  ghost predicate IsBinding(k: Bytes, basinIds: map<Name, u128>, streamIds: map<(u128, Name), u128>) {
    || (exists n: Name :: n in basinIds && k == Basins.MetadataKey(n))
    || (exists b: u128, n: Name :: (b, n) in streamIds && k == StreamLayout.MetadataKey(b, n))
  }

  ghost predicate MetaRepresents(meta: Tree, basinIds: map<Name, u128>, streamIds: map<(u128, Name), u128>) {
    && (forall n: Name :: BoundBasin(meta, n) == Lookup(basinIds, n))
    && (forall b: u128, n: Name ::
          BoundStream(meta, b, n) ==
          if (b, n) in streamIds then Some(StreamMetadata(b, streamIds[(b, n)])) else None)
    && (forall k | k in meta :: IsBinding(k, basinIds, streamIds))
  }

  const NO_DISK := Disk(None, map[])

  function DiskAt(disks: map<StreamKey, Disk>, b: u128, sid: u128): Disk {
    if StreamKey(b, sid) in disks then disks[StreamKey(b, sid)] else NO_DISK
  }

  ghost predicate StreamRepresented(tree: Tree, disks: map<StreamKey, Disk>, b: u128, sid: u128) {
    && WellFormed(tree, b, sid)
    && StoredBlock(tree, b, sid) == DiskAt(disks, b, sid).block
    && StoredRecords(tree, b, sid) == DiskAt(disks, b, sid).stored
  }

  ghost predicate RecordsRepresent(tree: Tree, disks: map<StreamKey, Disk>) {
    forall b: u128, sid: u128 :: StreamRepresented(tree, disks, b, sid)
  }

  ghost predicate Represents(meta: Tree, tree: Tree, s: State) {
    MetaRepresents(meta, s.basinIds, s.streamIds) && RecordsRepresent(tree, s.disks)
  }

  lemma EmptyStoresRepresentEmpty()
    ensures Represents(NO_STORES.meta, NO_STORES.records, EMPTY)
  {
    forall b: u128, sid: u128 ensures StreamRepresented(map[], map[], b, sid) {
      assert StoredRecords(map[], b, sid) == map[];
    }
  }

  lemma DiskIsRepresented(tree: Tree, disks: map<StreamKey, Disk>, key: StreamKey)
    requires RecordsRepresent(tree, disks) && key in disks
    ensures WellFormed(tree, key.basinId, key.streamId)
    ensures disks[key] == Disk(StoredBlock(tree, key.basinId, key.streamId), StoredRecords(tree, key.basinId, key.streamId))
  {
    assert StreamRepresented(tree, disks, key.basinId, key.streamId);
  }

  lemma StreamUnchanged(tree: Tree, tree': Tree, disks: map<StreamKey, Disk>, disks': map<StreamKey, Disk>, b: u128, sid: u128)
    requires StreamRepresented(tree, disks, b, sid) && SameStream(tree, tree', b, sid)
    requires DiskAt(disks', b, sid) == DiskAt(disks, b, sid)
    ensures StreamRepresented(tree', disks', b, sid)
  {
  }

  lemma StreamChanged(tree: Tree, disks: map<StreamKey, Disk>, key: StreamKey, disk: Disk)
    requires WellFormed(tree, key.basinId, key.streamId)
    requires StoredBlock(tree, key.basinId, key.streamId) == disk.block
    requires StoredRecords(tree, key.basinId, key.streamId) == disk.stored
    ensures StreamRepresented(tree, disks[key := disk], key.basinId, key.streamId)
  {
  }

  lemma OneStreamChanged(tree: Tree, tree': Tree, disks: map<StreamKey, Disk>, disks': map<StreamKey, Disk>, key: StreamKey)
    requires RecordsRepresent(tree, disks) && StreamRepresented(tree', disks', key.basinId, key.streamId)
    requires forall b: u128, sid: u128 | (b, sid) != (key.basinId, key.streamId) ::
               SameStream(tree, tree', b, sid) && DiskAt(disks', b, sid) == DiskAt(disks, b, sid)
    ensures RecordsRepresent(tree', disks')
  {
    forall b: u128, sid: u128 ensures StreamRepresented(tree', disks', b, sid) {
      if (b, sid) != (key.basinId, key.streamId) {
        StreamUnchanged(tree, tree', disks, disks', b, sid);
      }
    }
  }

  lemma AppendEffect(s: State, e: Event)
    requires Enabled(s, e) && e.ActorAppend?
    ensures var s', key := Next(s, e), s.actors[e.actor].key;
            var allocation := Allocated(s.actors[e.actor].cursor, 1);
            var disk := s.disks[key];
            && s'.basinIds == s.basinIds && s'.streamIds == s.streamIds
            && s'.disks == s.disks[key := if !e.ok then disk
                                          else Disk(if allocation.reported.Some? then allocation.reported else disk.block,
                                                    disk.stored[allocation.start := e.data])]
  {
  }

  lemma AppendIsWritten(s: State, e: Event, tree: Tree)
    requires Enabled(s, e) && e.ActorAppend? && e.ok && RecordsRepresent(tree, s.disks)
    ensures RecordsRepresent(Applied(tree, RecordBatch(s, e)), Next(s, e).disks)
  {
    AppendEffect(s, e);
    var key := s.actors[e.actor].key;
    var allocation := Allocated(s.actors[e.actor].cursor, 1);
    BatchRepresents(tree, s.disks, key, allocation.reported, Record(allocation.start, e.data));
  }

  lemma BatchRepresents(tree: Tree, disks: map<StreamKey, Disk>, key: StreamKey, block: Option<SeqBlock>, r: Record)
    requires RecordsRepresent(tree, disks) && key in disks
    ensures var b, sid := key.basinId, key.streamId;
            var head := if block.Some? then [StorageRecord(BlockKey(b, sid), SerialiseBlock(block.value))] else [];
            RecordsRepresent(
              Applied(tree, head + [StorageRecord(RecordKey(b, sid, r.seqNum), r.Encoded())]),
              disks[key := Disk(if block.Some? then block else disks[key].block, disks[key].stored[r.seqNum := r.data])])
  {
    var b, sid := key.basinId, key.streamId;
    var head := if block.Some? then [StorageRecord(BlockKey(b, sid), SerialiseBlock(block.value))] else [];
    var tree' := Applied(tree, head + [StorageRecord(RecordKey(b, sid, r.seqNum), r.Encoded())]);
    var disk' := Disk(if block.Some? then block else disks[key].block, disks[key].stored[r.seqNum := r.data]);
    DiskIsRepresented(tree, disks, key);
    St.BatchOfAppend(tree, b, sid, block, r);
    StreamChanged(tree', disks, key, disk');
    OneStreamChanged(tree, tree', disks, disks[key := disk'], key);
  }

  lemma BlockRepresents(tree: Tree, disks: map<StreamKey, Disk>, b: u128, sid: u128, block: SeqBlock)
    requires RecordsRepresent(tree, disks) && StreamKey(b, sid) in disks
    ensures var key := StreamKey(b, sid);
            RecordsRepresent(tree[BlockKey(b, sid) := SerialiseBlock(block)],
                             disks[key := disks[key].(block := Some(block))])
  {
    var key := StreamKey(b, sid);
    var tree' := tree[BlockKey(b, sid) := SerialiseBlock(block)];
    DiskIsRepresented(tree, disks, key);
    BlockWritten(tree, b, sid, block);
    forall b': u128, sid': u128 | (b', sid') != (b, sid) ensures SameStream(tree, tree', b', sid') {
      OtherStreamsUntouched(tree, BlockKey(b, sid), SerialiseBlock(block), b, sid, b', sid');
    }
    StreamChanged(tree', disks, key, disks[key].(block := Some(block)));
    OneStreamChanged(tree, tree', disks, disks[key := disks[key].(block := Some(block))], key);
  }

  lemma InitIsWritten(s: State, e: Event, tree: Tree)
    requires Enabled(s, e) && e.Advance? && e.io.ok && s.tasks[e.t].pc.StreamInit? && RecordsRepresent(tree, s.disks)
    ensures RecordsRepresent(Applied(tree, RecordBatch(s, e)), Next(s, e).disks)
  {
    CS.OpeningEffect(s, e.t, e.io);
    assert RecordBatch(s, e)[1..] == [];
    var pc := s.tasks[e.t].pc;
    BlockRepresents(tree, s.disks, s.handles[pc.h].basinId, pc.streamId, DEFAULT_CURSOR.block);
  }

  lemma NewBindings(meta: Tree, r: StorageRecord, basinIds: map<Name, u128>, streamIds: map<(u128, Name), u128>,
                    basinIds': map<Name, u128>, streamIds': map<(u128, Name), u128>)
    requires forall k | k in meta :: IsBinding(k, basinIds, streamIds)
    requires basinIds.Keys <= basinIds'.Keys && streamIds.Keys <= streamIds'.Keys && IsBinding(r.key, basinIds', streamIds')
    ensures forall k | k in meta[r.key := r.value] :: IsBinding(k, basinIds', streamIds')
  {
    forall k | k in meta[r.key := r.value] ensures IsBinding(k, basinIds', streamIds') {
      if k != r.key {
        assert IsBinding(k, basinIds, streamIds);
      }
    }
  }

  lemma CreationIsWritten(s: State, e: Event, meta: Tree, tree: Tree)
    requires Represents(meta, tree, s) && Enabled(s, e) && e.Advance? && e.io.ok && s.tasks[e.t].pc.StreamCreate?
    requires StreamKey(s.handles[s.tasks[e.t].pc.h].basinId, e.io.id) !in s.disks
    ensures Represents(Applied(meta, MetaBatch(s, e)), Applied(tree, RecordBatch(s, e)), Next(s, e))
  {
    var k := s.tasks[e.t];
    var basinId := s.handles[k.pc.h].basinId;
    assert MetaBatch(s, e)[1..] == [];
    StreamBindingRepresents(meta, s.basinIds, s.streamIds, basinId, k.stream, e.io.id);
    NewDiskIsEmpty(tree, s.disks, StreamKey(basinId, e.io.id));
  }

  lemma StreamBindingRepresents(meta: Tree, basinIds: map<Name, u128>, streamIds: map<(u128, Name), u128>,
                                basinId: u128, name: Name, id: u128)
    requires MetaRepresents(meta, basinIds, streamIds)
    ensures MetaRepresents(meta[StreamLayout.MetadataKey(basinId, name) := StreamMetadata(basinId, id).Encoded()],
                           basinIds, streamIds[(basinId, name) := id])
  {
    var r := StorageRecord(StreamLayout.MetadataKey(basinId, name), StreamMetadata(basinId, id).Encoded());
    StreamBound(meta, basinId, name, StreamMetadata(basinId, id));
    NewBindings(meta, r, basinIds, streamIds, basinIds, streamIds[(basinId, name) := id]);
  }

  lemma BasinBindingRepresents(meta: Tree, basinIds: map<Name, u128>, streamIds: map<(u128, Name), u128>, name: Name, id: u128)
    requires MetaRepresents(meta, basinIds, streamIds)
    ensures MetaRepresents(meta[Basins.MetadataKey(name) := BigEndian.U128Bytes(id)], basinIds[name := id], streamIds)
  {
    BasinBound(meta, name, id);
    NewBindings(meta, StorageRecord(Basins.MetadataKey(name), BigEndian.U128Bytes(id)), basinIds, streamIds,
                basinIds[name := id], streamIds);
  }

  /** A stream without a block and without records is represented whether or not it has metadata. */
  lemma NewDiskIsEmpty(tree: Tree, disks: map<StreamKey, Disk>, key: StreamKey)
    requires RecordsRepresent(tree, disks) && key !in disks
    ensures RecordsRepresent(tree, disks[key := Disk(None, map[])])
  {
    var disks' := disks[key := Disk(None, map[])];
    forall b: u128, sid: u128 ensures StreamRepresented(tree, disks', b, sid) {
      assert StreamRepresented(tree, disks, b, sid);
    }
  }

  lemma BindingIsWritten(s: State, e: Event, meta: Tree, tree: Tree)
    requires Represents(meta, tree, s) && Enabled(s, e) && e.Advance? && e.io.ok && s.tasks[e.t].pc.BasinCreate?
    ensures Represents(Applied(meta, MetaBatch(s, e)), Applied(tree, RecordBatch(s, e)), Next(s, e))
  {
    assert MetaBatch(s, e)[1..] == [];
    BasinBindingRepresents(meta, s.basinIds, s.streamIds, s.tasks[e.t].basin, e.io.id);
  }

  predicate Writes(s: State, e: Event)
    requires Enabled(s, e)
  {
    || (e.ActorAppend? && e.ok)
    || (e.Advance? && e.io.ok &&
        (s.tasks[e.t].pc.BasinCreate? || s.tasks[e.t].pc.StreamCreate? || s.tasks[e.t].pc.StreamInit?))
  }

  lemma OtherStepsWriteNothing(s: State, e: Event)
    requires Enabled(s, e) && !Writes(s, e)
    ensures MetaBatch(s, e) == [] && RecordBatch(s, e) == []
    ensures var s' := Next(s, e);
            s'.basinIds == s.basinIds && s'.streamIds == s.streamIds && s'.disks == s.disks
  {
    if e.Advance? {
      OtherAdvancesWriteNothing(WorldOf(s), s.tasks[e.t], e.io);
    } else if e.ActorAppend? {
      FailedAppendWritesNothing(s, e);
    }
  }

  lemma OtherAdvancesWriteNothing(w: World, k: Task, io: Io)
    requires Feasible(w, k, io) && !(io.ok && (k.pc.BasinCreate? || k.pc.StreamCreate? || k.pc.StreamInit?))
    ensures var w' := Effect(w, k, io);
            w'.basinIds == w.basinIds && w'.streamIds == w.streamIds && w'.disks == w.disks
  {
    CS.OtherAdvanceKeepsDisks(w, k, io);
  }

  lemma FailedAppendWritesNothing(s: State, e: Event)
    requires Enabled(s, e) && e.ActorAppend? && !e.ok
    ensures var s' := Next(s, e);
            s'.basinIds == s.basinIds && s'.streamIds == s.streamIds && s'.disks == s.disks
  {
    AppendEffect(s, e);
    var key := s.actors[e.actor].key;
    assert s.disks[key := s.disks[key]] == s.disks;
  }

  /** Applying what a step writes keeps the bytes representing the state. */
  lemma StepIsWritten(s: State, e: Event, meta: Tree, tree: Tree)
    requires Represents(meta, tree, s) && Enabled(s, e)
    requires e.Advance? && e.io.ok && s.tasks[e.t].pc.StreamCreate? ==>
               StreamKey(s.handles[s.tasks[e.t].pc.h].basinId, e.io.id) !in s.disks
    ensures Represents(Applied(meta, MetaBatch(s, e)), Applied(tree, RecordBatch(s, e)), Next(s, e))
  {
    if !Writes(s, e) {
      OtherStepsWriteNothing(s, e);
    } else if e.ActorAppend? {
      AppendEffect(s, e);
      AppendIsWritten(s, e, tree);
    } else if s.tasks[e.t].pc.StreamInit? {
      InitIsWritten(s, e, tree);
    } else if s.tasks[e.t].pc.StreamCreate? {
      CreationIsWritten(s, e, meta, tree);
    } else {
      BindingIsWritten(s, e, meta, tree);
    }
  }

  // Whole runs

  datatype Stores = Stores(meta: Tree, records: Tree)

  const NO_STORES := Stores(map[], map[])

  /** The two stores after a run. */
  function Written(w: Stores, s: State, es: seq<Event>): Stores
    requires Runnable(s, es)
    decreases |es|
  {
    if es == [] then w
    else
      Written(Stores(Applied(w.meta, MetaBatch(s, es[0])), Applied(w.records, RecordBatch(s, es[0]))), Next(s, es[0]), es[1..])
  }

  lemma {:induction false} RunIsWritten(w: Stores, s: State, es: seq<Event>)
    requires Inv(s) && Represents(w.meta, w.records, s) && Runnable(s, es)
    ensures Represents(Written(w, s, es).meta, Written(w, s, es).records, Run(s, es))
    decreases |es|
  {
    if es != [] {
      StepIsWritten(s, es[0], w.meta, w.records);
      StepKeepsInv(s, es[0]);
      RunIsWritten(Stores(Applied(w.meta, MetaBatch(s, es[0])), Applied(w.records, RecordBatch(s, es[0]))),
                   Next(s, es[0]), es[1..]);
    }
  }

  /** A name bound to an identifier in the bytes stays bound to it, whatever the system does, restarts included. */
  lemma BoundNamesStayBound(w: Stores, s: State, es: seq<Event>)
    requires Inv(s) && Represents(w.meta, w.records, s) && Runnable(s, es)
    ensures var meta := Written(w, s, es).meta;
            && (forall n: Name | BoundBasin(w.meta, n).Some? :: BoundBasin(meta, n) == BoundBasin(w.meta, n))
            && (forall b: u128, n: Name | BoundStream(w.meta, b, n).Some? :: BoundStream(meta, b, n) == BoundStream(w.meta, b, n))
  {
    RunIsWritten(w, s, es);
    CS.BindingsAreWriteOnce(s, es);
  }

  /** On stores written by the system a listing never fails, and the names it returns by the contract of `Stream.List`
      and `Basins.List` are exactly those bound in the state. */
  lemma ListingsAreExact(meta: Tree, s: State, basinId: u128)
    requires MetaRepresents(meta, s.basinIds, s.streamIds)
    ensures Listable(meta, MetadataPrefix(basinId), 32) && Listable(meta, METADATA_PREFIX, 16)
    ensures forall n: Name :: StreamLayout.MetadataKey(basinId, n) in meta <==> (basinId, n) in s.streamIds
    ensures forall n: Name :: Basins.MetadataKey(n) in meta <==> n in s.basinIds
  {
    forall k | k in meta && MetadataPrefix(basinId) <= k ensures |meta[k]| >= 32 && ValidUtf8(k[17..]) {
      StreamEntryDecodes(meta, s, basinId, k);
    }
    forall k | k in meta && METADATA_PREFIX <= k ensures |meta[k]| >= 16 && ValidUtf8(k[1..]) {
      BasinEntryDecodes(meta, s, k);
    }
    forall n: Name ensures StreamLayout.MetadataKey(basinId, n) in meta <==> (basinId, n) in s.streamIds {
      var k := StreamLayout.MetadataKey(basinId, n);
      if k in meta {
        assert MetadataPrefix(basinId) <= k;
        StreamEntryDecodes(meta, s, basinId, k);
      }
      assert BoundStream(meta, basinId, n).Some? <==> (basinId, n) in s.streamIds;
    }
    forall n: Name ensures Basins.MetadataKey(n) in meta <==> n in s.basinIds {
      var k := Basins.MetadataKey(n);
      if k in meta {
        assert METADATA_PREFIX <= k;
        BasinEntryDecodes(meta, s, k);
      }
      assert BoundBasin(meta, n).Some? <==> n in s.basinIds;
    }
  }

  lemma StreamEntryDecodes(meta: Tree, s: State, basinId: u128, k: Bytes)
    requires MetaRepresents(meta, s.basinIds, s.streamIds) && k in meta && MetadataPrefix(basinId) <= k
    ensures |meta[k]| >= 32 && ValidUtf8(k[17..])
  {
    assert IsBinding(k, s.basinIds, s.streamIds);
    assert k[0] == MetadataPrefix(basinId)[0];
    var b: u128, n: Name :| (b, n) in s.streamIds && k == StreamLayout.MetadataKey(b, n);
    assert k[17..] == n;
    assert BoundStream(meta, b, n).Some?;
  }

  lemma BasinEntryDecodes(meta: Tree, s: State, k: Bytes)
    requires MetaRepresents(meta, s.basinIds, s.streamIds) && k in meta && METADATA_PREFIX <= k
    ensures |meta[k]| >= 16 && ValidUtf8(k[1..])
  {
    assert IsBinding(k, s.basinIds, s.streamIds);
    assert k[0] == METADATA_PREFIX[0];
    var n: Name :| n in s.basinIds && k == Basins.MetadataKey(n);
    assert k[1..] == n;
    assert BoundBasin(meta, n).Some?;
  }

  /** The bytes after any run of the whole system from empty stores, restarts included: for a stream with an orderly
      history, the record store holds under number q exactly what was acknowledged as q, and everything decodes. With
      the contract of `Stream.Read`, a read of q answers with that record if q was acknowledged and with none if not. */
  lemma BytesHoldAcknowledgedRecords(es: seq<Event>, key: StreamKey)
    requires Runnable(EMPTY, es) && CS.OrderlyHistory(es, key)
    ensures var records := Written(NO_STORES, EMPTY, es).records;
            && WellFormed(records, key.basinId, key.streamId)
            && forall a :: L.Holds(StoredRecords(records, key.basinId, key.streamId), a) <==>
                           a in CS.Acknowledgements(EMPTY, es, key)
  {
    var w, s := Written(NO_STORES, EMPTY, es), Run(EMPTY, es);
    assert Represents(w.meta, w.records, s) by {
      CS.EmptyInv();
      EmptyStoresRepresentEmpty();
      RunIsWritten(NO_STORES, EMPTY, es);
    }
    CS.AcknowledgedRecordsSurvive(es, key);
    RecordsOnDisk(w.records, s.disks, key);
  }

  lemma RecordsOnDisk(tree: Tree, disks: map<StreamKey, Disk>, key: StreamKey)
    requires RecordsRepresent(tree, disks)
    ensures WellFormed(tree, key.basinId, key.streamId)
    ensures forall a :: L.Holds(StoredRecords(tree, key.basinId, key.streamId), a) <==>
                        key in disks && L.Holds(disks[key].stored, a)
  {
    assert StreamRepresented(tree, disks, key.basinId, key.streamId);
  }
}
