# Verified model of the slatestreams log engine

`crates/slatestreams` keeps append-only streams, grouped in basins, on top of an atomic ordered key/value store. This
project models that engine in Dafny and proves what it guarantees: which acknowledged records survive crashes, what a
follower receives, that one stream has one owner, and that the bytes in the stores mean what the engine thinks they mean.

Run `dafny verify dfyconfig.toml` in this directory to check all of it.

## Layers

| files | what they model |
|---|---|
| `Common`, `ByteOrder` (with `BigEndian`), `Names`, `Record`, `Storage` | integers and wrap-around, lexicographic order, big-endian numbers, UTF-8 names, records, key ranges |
| `Key`, `InMemory`, `Scan` | `next_prefix`, `prefix_range`, the key builder, the ordered in-memory store and its iterator, prefix scans |
| `Sequence` | block-wise sequence numbers |
| `StreamLayout`, `Stream`, `Basin` | keys and values of streams and basins; creating, loading, appending, reading, listing |
| `LogMachine` | one stream's disk and owner under appends, failed writes, crashes and reloads |
| `Actor`, `ReaderProtocol`, `FollowerProgress` | the stream actor with its bounded broadcast channel; any number of appenders and followers around it; when followers end and that they get what they are owed |
| `Controller`, `ControllerSafety`, `ControllerProgress` | double-checked caches of basins and streams with any number of callers, drops and restarts; each stream behind them as a `LogMachine`; no deadlock |
| `Delivery`, `Durability` | compositions: what followers of a recovered stream receive, and what the bytes in the stores hold after any run of the whole system |

Code that changes state step by step is modelled by classes and methods (allocator, stores, iterator, key builder,
stream, actor, loops of `next_prefix` and of the listings); each is tied by its contract to a function on values, and the
theorems are about those functions. Concurrency is modelled by step relations over arbitrary interleavings.

## Main results

* **Crash safety** (`LogMachine.CrashSafety`, `LogMachine.DisciplinedRunsAreSafe`, `LogMachine.ReloadIsSafeIff`). The
  unconditional claim is false of the code in two ways, each shown by a shortest run: after a failed write that carried a
  new block the owner goes on from a block that is on no disk (`LogMachine.FailedBlockWriteLosesRecord`), and a stream
  whose creation stopped between its two writes is served from an unpersisted default block
  (`LogMachine.HalfCreatedStreamLosesRecord`). Runs that avoid both lose nothing. For the disk left by any run whatever,
  continuing is safe if and only if a block is stored and all stored records lie below its end, which can be read off
  the store before a reload; and an append keeps that condition if and only if its allocator works through the stored
  block or the write carries the next one (`LogMachine.AppendStaysCoveredIff`).
* **Exact and complete delivery** (`ReaderProtocol.ExactDelivery`, `FollowerProgress.StopsHaveCauses`,
  `FollowerProgress.QuietFollowersAreServed`). A follower's output is always the beginning of the stored records from
  min(start, tail) on, in order and without gap or duplicate, ended by at most one error. It ends only if its client has
  gone, one of its reads failed, or it lagged; otherwise a run that leaves it nothing to do has sent it everything.
* **Numbers of appends** (`LogMachine.AppendsTakeTheirNumbers`, `ReaderProtocol.RepliesAreExact`). The k-th append an owner
  handles takes the k-th number, whichever appends fail, and is answered with it, in the order of the queue.
* **One owner per stream** (`ControllerSafety.AtMostOneActor`, `ControllerSafety.SameNamesSameHandle`).
* **Callers are served** (`ControllerProgress.NoDeadlock`, `ControllerProgress.FailuresHaveCauses`,
  `ControllerProgress.RequestsAreServed`). Nobody deadlocks; a caller fails exactly when a storage access fails or it looks
  for an unbound name it may not create; and nothing is bound that nobody asked for
  (`ControllerProgress.StreamsAreBoundOnRequest`).
* **End to end** (`ControllerSafety.AcknowledgedRecordsSurvive`, `ControllerSafety.CleanRunsLoseNothing`,
  `Durability.BytesHoldAcknowledgedRecords`, `Delivery.FollowersSeeWhatWasAcknowledged`). Every stream of the running
  system is a run of the crash-safety machine, the bytes always represent the state, and followers receive exactly what
  was acknowledged.

## Assumptions

* `Storage::apply` is atomic, and an `Err` from it means that nothing was written. A write abandoned by a dropped caller
  has either taken effect before the caller's lock is released or never takes effect.
* `Uuid::new_v4` returns an identifier that is not in use.
* One server process runs at a time.
* A tokio broadcast receiver is told that it lagged exactly when it is more than the capacity behind.
* Arithmetic on 64-bit numbers wraps, as in an optimised build. Results about runs bound the numbers used (one for each
  append, 4096 for each reload, and two blocks of head room) by 2^64; within the bound nothing wraps
  (`LogMachine.TailBound`), so a build that panics on overflow does not panic.
* Whether a storage access succeeds, which identifier is drawn and which address an allocation gets are parameters.

## Model

| member | source | states |
|---|---|---|
| Sequence.SequenceAllocator.Allocate | crates/slatestreams/src/storage/sequence.rs:101-130 | one allocation has the effect and result of the value-level step `Allocated`, wrap-around included |
| Sequence.AllocationIsCounterStep | crates/slatestreams/src/storage/sequence.rs:99-130 | an allocation is `next += count` if and only if no 64-bit overflow; a block is reported exactly when the current one is used up, is adjacent and of the same size, and the cursor stays in its block exactly when that block fits in 64 bits |
| Sequence.AllocationWraps | crates/slatestreams/src/storage/sequence.rs:99-130 | from any cursor, overflow included, numbers and block starts are counted modulo 2^64, and a block is reported exactly when no more than the count is left of the current one |
| Sequence.AllocationsTile | crates/slatestreams/src/storage/sequence.rs:84-138 | over any sequence of allocations the ranges tile an interval without gap or overlap, below the end of the block then held, and reported blocks follow one another |
| Sequence.BlockRoundTrip | crates/slatestreams/src/storage/sequence.rs:18-47 | the start is encoded in the first 8 bytes and the size in the next 8; decoding an encoded block, with anything behind it, gives the block back |
| Sequence.BlockReencodes | crates/slatestreams/src/storage/sequence.rs:18-47 | encoding a decoded buffer gives its first 16 bytes back |
| Sequence.DeserializeBlock | crates/slatestreams/src/storage/sequence.rs:29-47 | fails exactly on buffers shorter than 16 bytes |
| StreamRecord.RecordRoundTrip | crates/slatestreams/src/record.rs:12-32 | the number is encoded in the first 8 bytes and the data follows; decoding an encoded record gives the record back |
| StreamRecord.RecordReencodes | crates/slatestreams/src/record.rs:12-32 | encoding what was decoded from a buffer of at least 8 bytes gives the whole buffer back |
| StreamRecord.Record.Serialise | crates/slatestreams/src/record.rs:12-17 | the buffer filled step by step is the record's encoding |
| Key.NextPrefix | crates/slatestreams/src/key/key.rs:44-54 | the backward loop computes `Successor` for every prefix, empty and all-0xFF ones included |
| Key.SuccessorIsLeastUpperBound | crates/slatestreams/src/key/key.rs:44-54 | it is the least string above every string with the prefix, missing exactly when no such bound exists, which is when all bytes are 0xFF |
| Key.PrefixRange | crates/slatestreams/src/key/key.rs:34-42 | the range contains exactly the strings that extend the prefix and is never inverted |
| Key.BytesBuilder.AddU8 | crates/slatestreams/src/key/key.rs:72-75 | appends the byte |
| Key.BytesBuilder.AddU64 | crates/slatestreams/src/key/key.rs:77-80 | appends eight big-endian bytes |
| Key.BytesBuilder.AddU128 | crates/slatestreams/src/key/key.rs:82-85 | appends sixteen big-endian bytes |
| Key.BytesBuilder.PutStr | crates/slatestreams/src/key/key.rs:87-90 | appends the bytes of the string |
| BigEndian.EncodeIsOrderEmbedding | crates/slatestreams/src/key/key.rs:77-85 | byte order of fixed-width big-endian numbers is numeric order |
| InMemory.InMemoryStorage.Apply | crates/slatestreams/src/storage/in_memory.rs:29-41 | writes the whole batch in order and counts it, or nothing on failure |
| InMemory.LastWriteCounts | crates/slatestreams/src/storage/in_memory.rs:33-36 | of several writes to one key the last in the batch counts, and other keys keep their values |
| InMemory.InMemoryStorage.Get | crates/slatestreams/src/storage/in_memory.rs:46-55 | finds exactly the stored value of the key |
| InMemory.InMemoryStorage.ScanIter | crates/slatestreams/src/storage/in_memory.rs:57-72 | the iterator holds exactly the entries of the range in ascending key order |
| InMemory.InMemoryIterator.Next | crates/slatestreams/src/storage/in_memory.rs:82-89 | yields the records one by one and then nothing |
| Storage.RangeIsInterval | crates/slatestreams/src/storage/storage.rs:38-48 | a range holds what lies between its ends, and an end itself exactly if the bound includes it |
| StreamLayout.RecordKeyIsOrderEmbedding | crates/slatestreams/src/stream.rs:274-281 | byte order of record keys is the order of (basin, stream, number), and a key determines all three |
| StreamLayout.RecordKeyIsNoBlockKey | crates/slatestreams/src/stream.rs:265-281 | no record key equals a block key |
| StreamLayout.BlockKeyIsInjective | crates/slatestreams/src/stream.rs:265-272 | byte order of block keys is the order of (basin, stream), and a key determines both |
| StreamLayout.MetadataKeyIsInjective | crates/slatestreams/src/stream.rs:283-289 | a metadata key determines basin and stream name |
| StreamLayout.OtherStreamsUntouched | crates/slatestreams/src/stream.rs:172-215 | a write under one stream's keys leaves block, records and well-formedness of every other stream unchanged |
| StreamLayout.StreamMetadata.Serialise | crates/slatestreams/src/stream.rs:43-48 | the buffer filled step by step is the metadata's encoding |
| StreamLayout.MetadataRoundTrip | crates/slatestreams/src/stream.rs:43-68 | the basin identifier comes first; decoding encoded metadata, with anything behind it, gives it back |
| StreamLayout.MetadataReencodes | crates/slatestreams/src/stream.rs:43-68 | encoding a decoded buffer gives its first 32 bytes back |
| Stream.Stream.Append | crates/slatestreams/src/stream.rs:172-215 | on the bytes, one append is one step of the crash-safety machine; a failed write leaves the disk as it was, but failed or not the append uses up exactly one number, and the block if that was its last; other streams are untouched; the result is the record and the next number |
| Stream.BatchOfAppend | crates/slatestreams/src/stream.rs:174-208 | the batch of an append, with or without a block, changes exactly the stream's block and the one record |
| Stream.Stream.Read | crates/slatestreams/src/stream.rs:217-237 | returns what the value under the record key decodes to; on a well-formed stream exactly the stored record of that number, or none |
| Stream.Stream.NextSeqNum | crates/slatestreams/src/stream.rs:239-241 | the live allocator's next number |
| Stream.New | crates/slatestreams/src/stream.rs:86-120 | metadata is bound first, the default block written second; a failure of either write leaves exactly what was written before it; success is the machine's `CreateBlock` |
| Stream.LoadMetadata | crates/slatestreams/src/stream.rs:154-170 | finds the stored metadata, or tells a missing stream from a value that is too short |
| Stream.Load | crates/slatestreams/src/stream.rs:122-152 | succeeds exactly when metadata and block (if stored) decode; says that the stream does not exist if and only if its metadata key is missing, and reports every other failure as what it is; goes on behind the stored block, or from 0 if none is stored |
| Stream.List | crates/slatestreams/src/stream.rs:243-263 | succeeds exactly when all entries of the basin decode, and returns precisely the names with metadata in that basin, strictly ascending |
| Names.ValidUtf8IsEncodedText | crates/slatestreams/src/stream.rs:256-259 | the names a listing accepts are exactly the encodings, in one to four bytes each, of sequences of Unicode scalar values |
| Names.SortingAscendingIsNoOp | crates/slatestreams/src/stream.rs:261 | sorting names that come from a scan changes nothing |
| Names.SortBySorts | crates/slatestreams/src/stream.rs:261 | the sort used for listings returns an ascending permutation |
| Scan.NamesAreExact | crates/slatestreams/src/stream.rs:253-260 | stripping the shared prefix from scanned keys gives ascending names, one for each key |
| Basins.New | crates/slatestreams/src/basin/basin.rs:24-43 | binds the name to the drawn identifier and changes no other basin or stream binding |
| Basins.Load | crates/slatestreams/src/basin/basin.rs:45-62 | returns the bound identifier, none for an unbound name, and an error for a value that is too short |
| Basins.List | crates/slatestreams/src/basin/basin.rs:64-85 | succeeds exactly when all basin entries decode, and returns precisely the bound names, strictly ascending |
| Basins.DeserialiseBasinId | crates/slatestreams/src/basin/basin.rs:95-104 | fails exactly on values shorter than 16 bytes |
| Basins.BasinBound | crates/slatestreams/src/basin/basin.rs:29-34 | binding a basin name affects that name alone |
| Basins.StreamBound | crates/slatestreams/src/stream.rs:99-105 | binding a stream name affects that name in that basin alone |
| LogMachine.CrashSafety | crates/slatestreams/src/stream.rs:122-215 | over whole runs in which every reload finds the stored records below the end of the stored block: no record is overwritten, numbers are acknowledged in increasing order, and the disk holds exactly the acknowledged records |
| LogMachine.DisciplinedRunsAreSafe | crates/slatestreams/src/stream.rs:86-215 | the same for every run that completes creations and reloads after a failed write that carried a block; all records stay below the stored block's end and the live block is the stored one |
| LogMachine.ReloadIsSafeIff | crates/slatestreams/src/stream.rs:138-145 | after any run, fault-free continuations never overwrite a record if and only if a block is stored and all stored records lie below its end |
| LogMachine.AppendStaysCoveredIff | crates/slatestreams/src/stream.rs:176-209 | a successful append keeps the stored records below the stored block's end if and only if its allocator works through the stored block or the write carries the next one |
| LogMachine.FailedBlockWriteLosesRecord | crates/slatestreams/src/stream.rs:177-209 | a run in which an acknowledged record is overwritten after a failed write that carried a block |
| LogMachine.HalfCreatedStreamLosesRecord | crates/slatestreams/src/stream.rs:99-144 | a run in which an acknowledged record is overwritten because creation stopped between its writes |
| LogMachine.InvHolds | crates/slatestreams/src/storage/sequence.rs:50-127 | after any run, failures included, tail and stored block are bounded by appends + 4096 * reloads and the cursor is inside its block |
| LogMachine.TailBound | crates/slatestreams/src/storage/sequence.rs:85-127 | with n successful appends and r reloads the tail is at most n + 4096 r, and the sums taken by the next allocation stay below 2^64 |
| LogMachine.ReloadSkipsRestOfBlock | crates/slatestreams/src/storage/sequence.rs:85-90 | a reload skips what is left of the block, and nothing if nothing was appended since the last one |
| LogMachine.AppendsAreConsecutive | crates/slatestreams/src/storage/sequence.rs:101-129 | successful appends to one owner get consecutive numbers |
| LogMachine.AppendTakesOneNumber | crates/slatestreams/src/stream.rs:177-209 | failed or not, an append moves the allocator on by one, and to the adjacent block exactly at the end of the current one |
| LogMachine.AppendsTakeTheirNumbers | crates/slatestreams/src/stream.rs:172-215 | in a crash-free run of appends with any outcomes the i-th takes number first + i, and exactly the successful ones are acknowledged, under their number and with their data |
| Actor.SendKeepsNewest | crates/slatestreams/src/stream_controller.rs:291-296 | the bounded channel keeps the newest 1024 records sent |
| Actor.ReceiveIsExact | crates/slatestreams/src/stream_controller.rs:139-154 | a receiver is told that it lagged exactly when it is more than 1024 behind, and otherwise gets the record at its position |
| Actor.StreamActor.Handle | crates/slatestreams/src/stream_controller.rs:348-365 | one turn of the loop: a successful append is stored, broadcast and answered under one number, a failed one is none of these; a read that does not fail is answered with the stored record or none; subscribing takes position and tail at once; each changes nothing else |
| Actor.StreamActor.Run | crates/slatestreams/src/stream_controller.rs:346-367 | the command loop is the fold of its turns over the queue, in arrival order, with one reply for each command |
| Actor.RepliesFollowCommands | crates/slatestreams/src/stream_controller.rs:346-367 | the i-th reply is the one to the i-th command, in the state that the commands before it have left |
| ReaderProtocol.ExactDelivery | crates/slatestreams/src/stream_controller.rs:119-154 | under every interleaving a follower's output is a gap-free beginning of the stored records from min(start, tail) on, ended by at most one error; complete once it has caught up; lagged only if more than 1024 behind |
| ReaderProtocol.GapFreeIsOrdered | crates/slatestreams/src/stream_controller.rs:123-147 | what is delivered is strictly increasing in number, within range, and equal to what is stored |
| ReaderProtocol.SliceIsExact | crates/slatestreams/src/stream_controller.rs:124-137 | the records owed are exactly the stored ones of the range, in strictly increasing order |
| ReaderProtocol.NothingIsDiscarded | crates/slatestreams/src/stream_controller.rs:142-147 | in every reachable state a record about to be received is at or above the subscribed tail |
| ReaderProtocol.ReadsBelowTailAreStable | crates/slatestreams/src/stream_controller.rs:123-137 | below the tail a read gives the same answer however many appends come in between |
| ReaderProtocol.StoppedIsFinal | crates/slatestreams/src/stream_controller.rs:148-152 | a follower that has ended sends nothing more |
| ReaderProtocol.AppendsLinearise | crates/slatestreams/src/stream_controller.rs:345-355 | without failures the k-th processed append on a fresh stream is answered with k, whatever callers and followers do |
| ReaderProtocol.FirstInFirstOut | crates/slatestreams/src/stream_controller.rs:299-355 | over any run commands are handled in the order in which they were queued, one with each turn of the actor |
| ReaderProtocol.RepliesAreExact | crates/slatestreams/src/stream_controller.rs:345-355 | with any failures, the k-th handled append takes the k-th number and is answered with its own data and the number after its own, or with its failure, in the order of handling |
| ReaderProtocol.GoneClientsEndFollowers | crates/slatestreams/src/stream_controller.rs:126-147 | a follower with something to send whose client has gone sends nothing and ends; one with nothing to send goes on as if the client were there |
| FollowerProgress.StopsHaveCauses | crates/slatestreams/src/stream_controller.rs:122-154 | a follower has ended only if its client was found gone or its output ends in an error: numbers without a record do not end it |
| FollowerProgress.ReadErrorsAreStorageErrors | crates/slatestreams/src/stream_controller.rs:132-135 | an error that a follower reports is the error of one of the actor's storage accesses |
| FollowerProgress.UndisturbedFollowersOnlyLag | crates/slatestreams/src/stream_controller.rs:122-154 | a follower whose client stays and whose own reads do not fail ends only by lagging, whatever happens to appends and other followers |
| FollowerProgress.QuietFollowersAreServed | crates/slatestreams/src/stream_controller.rs:119-154 | a run that leaves the actor and such a follower nothing to do has delivered everything owed, or ended it more than a full channel behind after a gap-free beginning |
| FollowerProgress.FollowersTakeBoundedSteps | crates/slatestreams/src/stream_controller.rs:122-154 | every step brings a follower forward: two for each number of the backfill, one for each record broadcast since it subscribed, and two more |
| FollowerProgress.FollowersKeepTheirStart | crates/slatestreams/src/stream_controller.rs:99-123 | a follower backfills from the number it was opened with |
| Controller.RunKeepsInv | crates/slatestreams/src/stream_controller.rs:179-281 | every step of any number of callers keeps the caches, locks, bindings, callers' knowledge and actors consistent |
| Controller.ActorExcludesInit | crates/slatestreams/src/stream_controller.rs:249-275 | while a caller opens or initialises a stream no actor works on it |
| ControllerSafety.AtMostOneActor | crates/slatestreams/src/stream_controller.rs:238-281 | in every reachable state no two actors serve the same names or own the same stored stream |
| ControllerSafety.SameNamesSameHandle | crates/slatestreams/src/stream_controller.rs:179-281 | callers served for the same names hold the same handle, to a running actor for the identifiers bound on disk |
| ControllerSafety.CacheEntriesAreNeverReplaced | crates/slatestreams/src/stream_controller.rs:196-198 | while the process lives no cache entry is replaced or removed |
| ControllerSafety.BindingsAreWriteOnce | crates/slatestreams/src/stream_controller.rs:187-198 | an identifier once bound to a name stays bound across failures, dropped callers, races and restarts |
| ControllerSafety.NoOwnerWhileOpening | crates/slatestreams/src/stream_controller.rs:254-275 | a stream has no live allocator while it is loaded or initialised |
| ControllerSafety.StepProjects | crates/slatestreams/src/stream_controller.rs:179-281 | every step of the system is one step of a stream's crash-safety machine or none |
| ControllerSafety.RunProjects | crates/slatestreams/src/stream_controller.rs:179-281 | a run of the system is a run of each stream's machine with the same acknowledgements |
| ControllerSafety.AcknowledgedRecordsSurvive | crates/slatestreams/src/stream_controller.rs:77-97 | a stream with an orderly history has on disk exactly what was acknowledged, under increasing numbers |
| ControllerSafety.CleanRunsLoseNothing | crates/slatestreams/src/stream_controller.rs:77-97 | the same for every run in which no append fails and no creation is interrupted between its writes |
| ControllerProgress.BasinsAreBoundOnRequest | crates/slatestreams/src/stream_controller.rs:187-220 | a basin name gets bound only if a caller that may create it is at work: plain lookups never bind one |
| ControllerProgress.StreamsAreBoundOnRequest | crates/slatestreams/src/stream_controller.rs:254-273 | a stream name of a basin gets bound only if a caller that may create it is at work |
| ControllerProgress.NoDeadlock | crates/slatestreams/src/stream_controller.rs:187-281 | while any caller is unfinished some caller can take a step, whoever holds which lock |
| ControllerProgress.FailuresHaveCauses | crates/slatestreams/src/stream_controller.rs:187-271 | a caller fails exactly when a storage access fails, or when it looks for a basin or stream that is not bound and may not create it |
| ControllerProgress.CallersDoNotFail | crates/slatestreams/src/stream_controller.rs:179-281 | a caller that may create, or whose basin and stream are bound, that is not dropped and whose storage accesses succeed never fails, whatever others do, and takes at most 15 steps |
| ControllerProgress.CallersAreServed | crates/slatestreams/src/stream_controller.rs:179-281 | in a run that leaves nobody a step to take, every such caller holds the handle of a running actor for its names |
| ControllerProgress.RequestsAreServed | crates/slatestreams/src/stream_controller.rs:77-120 | the same from the request on: the actor serves the very names asked for |
| ControllerProgress.CachedCallersDoNotWait | crates/slatestreams/src/stream_controller.rs:183-185 | a caller whose basin and stream are cached is served in two steps of its own and never waits for anybody |
| ControllerProgress.DroppedCallersHoldNothing | crates/slatestreams/src/stream_controller.rs:187-275 | a dropped caller leaves no lock and no uncached actor behind |
| Delivery.FollowersSeeWhatWasAcknowledged | crates/slatestreams/src/stream_controller.rs:99-158 | followers of a recovered stream are sent only acknowledged records, and once caught up all of them from their starting point on |
| Durability.StepIsWritten | crates/slatestreams/src/stream.rs:99-208 | applying the batches a step writes keeps the two byte stores representing the state |
| Durability.BoundNamesStayBound | crates/slatestreams/src/basin/basin.rs:24-62 | in the bytes a bound basin or stream name keeps its identifier over every run |
| Durability.ListingsAreExact | crates/slatestreams/src/basin/basin.rs:64-85 | on stores written by the system listings never fail and name exactly what is bound |
| Durability.BytesHoldAcknowledgedRecords | crates/slatestreams/src/stream.rs:172-237 | after any run of the whole system the record store holds, for a stream with an orderly history, exactly the acknowledged records, and everything decodes |

Where comment and code differ, the code is followed: `allocate` says that it moves to a new block when more is asked for
than remains (storage/sequence.rs:116), but it does so already when exactly the remainder is asked for. The feature lists
in the repository's README.md and ARCHITECTURE.md (retention, fencing, trimming, durability notifications) describe
functions that `crates/slatestreams` does not contain.

## Left out

- gRPC service, client and server crates, generated protobuf code and the video-conferencing example: plumbing around the engine.
- SlateDB (storage/slatedb.rs): an unseen library; only the contract of the storage trait is used, through the in-memory store.
- Name validation, `map_stream_not_found` and error texts: settled by reading one branch; errors are kinds without messages.
- Stream.New: the two stores are distinct objects, as the server sets them up; one store used for both is not modelled.
- Stream.Stream.Append: a stored block of size zero makes the source panic; the method requires a block size of at least one, which every block the engine writes has.
- Actor.StreamActor.Handle: stated for streams whose stored values decode, which every run of the system keeps; `Stream.Stream.Read` covers values that do not.
- Lock poisoning, closing channels and a panicking actor: actors live as long as a handle does, and handles stay cached; only dropped callers and a dying process end them.
- The client channel of a follower: sending into it is one step that may be delayed at will, so its capacity does not matter; its error is the client having gone.
- Task scheduling and fairness: that some caller can always move is shown, and that each moves a bounded number of times, but not that the scheduler lets it.
- Controller lookups (`get_or_create_basin`, `get_stream`) and the `read_follow` task: modelled as steps between await points, on values, because other callers run in between; a method with a body of its own would only show them alone.
- Two server processes on one store: left to SlateDB by the engine.
