/** The controller's caches: concurrent callers open basins and streams by double-checked locking, on two levels. */
module Controller {
  import opened Common
  import opened Names
  import opened Sequence
  import L = LogMachine

  /** Progress of one caller. A caller holds the basin lock from `BasinCheck` to `BasinUnlock`, and the stream lock of
      basin handle `h` from `StreamCheck` to `StreamUnlock`. */
  datatype Pc =
    | Start                                         // first look into the basin cache
    | BasinWait                                     // waiting for the basin lock
    | BasinCheck                                    // second look, under the lock
    | BasinLoad                                     // reading the binding of the name
    | BasinCreate                                   // writing a new binding
    | BasinInsert(basinId: u128)                    // putting a new handle into the cache
    | BasinUnlock(h: nat)
    | StreamStart(h: nat)                           // first look into the handle's stream cache
    | StreamWait(h: nat)
    | StreamCheck(h: nat)
    | StreamLoad(h: nat)                            // reading the stream's metadata
    | StreamBlock(h: nat, streamId: u128)           // reading its block, then starting its actor
    | StreamCreate(h: nat)                          // writing metadata with a new identifier
    | StreamInit(h: nat, streamId: u128)            // writing the default block, then starting its actor
    | StreamInsert(h: nat, actor: nat)              // putting the actor's handle into the cache
    | StreamUnlock(h: nat, actor: nat)
    | Done(h: nat, actor: nat)                      // the caller holds the actor's handle
    | Failed

  datatype Task = Task(basin: Name, stream: Name, create: bool, pc: Pc)

  datatype StreamKey = StreamKey(basinId: u128, streamId: u128)

  /** What the record store holds for a stream that has metadata. */
  datatype Disk = Disk(block: Option<SeqBlock>, stored: map<u64, Bytes>)

  /** `name` only serves to state invariants: the source drops it. */
  datatype BasinHandle = BasinHandle(name: Name, basinId: u128, streams: map<Name, nat>)

  /** A running actor. `h` and `name` say where it was started and only serve to state invariants. */
  datatype StreamActor = StreamActor(h: nat, name: Name, key: StreamKey, cursor: Cursor)

  datatype State = State(
    // on disk
    basinIds: map<Name, u128>,
    streamIds: map<(u128, Name), u128>,
    disks: map<StreamKey, Disk>,
    // in the process
    basins: map<Name, nat>,
    basinInit: Option<nat>,
    handles: map<nat, BasinHandle>,
    streamInits: map<nat, nat>,        // holder of each basin handle's stream lock, while it is held
    actors: map<nat, StreamActor>,
    tasks: map<nat, Task>)

  /** What a step draws from its surroundings: whether its storage access succeeds, a fresh identifier, and the address
      of a newly allocated handle or actor. */
  datatype Io = Io(ok: bool, id: u128, address: nat)

  datatype Event =
    | Arrive(t: nat, basin: Name, stream: Name, create: bool)
    | Advance(t: nat, io: Io)
    | Cancel(t: nat)                                       // the caller is dropped at an await point
    | ActorAppend(actor: nat, data: Bytes, ok: bool)
    | Restart                                              // the process dies and starts again

  const EMPTY := State(map[], map[], map[], map[], None, map[], map[], map[], map[])

  predicate InBasinSection(pc: Pc) {
    pc.BasinCheck? || pc.BasinLoad? || pc.BasinCreate? || pc.BasinInsert? || pc.BasinUnlock?
  }

  predicate InStreamSection(pc: Pc) {
    pc.StreamCheck? || pc.StreamLoad? || pc.StreamBlock? || pc.StreamCreate? || pc.StreamInit? ||
    pc.StreamInsert? || pc.StreamUnlock?
  }

  predicate HasHandle(pc: Pc) {
    pc.BasinUnlock? || pc.StreamStart? || pc.StreamWait? || InStreamSection(pc) || pc.Done?
  }

  /** The stores, the caches and the actors: what callers share, apart from the locks. */
  datatype World = World(basinIds: map<Name, u128>, streamIds: map<(u128, Name), u128>, disks: map<StreamKey, Disk>,
                         basins: map<Name, nat>, handles: map<nat, BasinHandle>, actors: map<nat, StreamActor>)

  function WorldOf(s: State): World {
    World(s.basinIds, s.streamIds, s.disks, s.basins, s.handles, s.actors)
  }

  /** Fresh identifiers are unused, and so are newly allocated addresses. */
  predicate Feasible(w: World, k: Task, io: Io) {
    (HasHandle(k.pc) ==> k.pc.h in w.handles) &&
    match k.pc
    case BasinCreate => io.ok ==> io.id !in w.basinIds.Values
    case BasinInsert(_) => io.address !in w.handles
    case StreamBlock(h, sid) => io.ok ==> io.address !in w.actors && StreamKey(w.handles[h].basinId, sid) in w.disks
    case StreamCreate(_) => io.ok ==> io.id !in w.streamIds.Values
    case StreamInit(h, sid) => io.ok ==> io.address !in w.actors && StreamKey(w.handles[h].basinId, sid) in w.disks
    case Done(_, _) => false
    case Failed => false
    case _ => true
  }

  predicate MayAdvance(s: State, k: Task, io: Io) {
    && Feasible(WorldOf(s), k, io)
    && (k.pc.BasinWait? ==> s.basinInit.None?)
    && (k.pc.StreamWait? ==> k.pc.h !in s.streamInits)
  }

  predicate Enabled(s: State, e: Event) {
    match e
    case Arrive(t, _, _, _) => t !in s.tasks
    case Advance(t, io) => t in s.tasks && MayAdvance(s, s.tasks[t], io)
    case Cancel(t) => t in s.tasks
    case ActorAppend(a, data, ok) =>
      a in s.actors && s.actors[a].key in s.disks && s.actors[a].cursor.block.blockSize >= 1
    case Restart => true
  }

  /** Where a caller goes while it looks for its basin's handle. */
  function NextBasinPc(w: World, k: Task, io: Io): Pc
    requires k.pc.Start? || k.pc.BasinWait? || InBasinSection(k.pc)
  {
    match k.pc
    case Start => if k.basin in w.basins then StreamStart(w.basins[k.basin]) else BasinWait
    case BasinWait => BasinCheck
    case BasinCheck => if k.basin in w.basins then StreamStart(w.basins[k.basin]) else BasinLoad
    case BasinLoad =>
      if !io.ok then Failed
      else if k.basin in w.basinIds then BasinInsert(w.basinIds[k.basin])
      else if k.create then BasinCreate
      else Failed
    case BasinCreate => if io.ok then BasinInsert(io.id) else Failed
    case BasinInsert(_) => BasinUnlock(io.address)
    case BasinUnlock(h) => StreamStart(h)
  }

  /** Where a caller goes while it looks for its stream's actor in the basin's handle. */
  function NextStreamPc(w: World, k: Task, handle: BasinHandle, io: Io): Pc
    requires k.pc.StreamStart? || k.pc.StreamWait? || InStreamSection(k.pc)
  {
    match k.pc
    case StreamStart(h) => if k.stream in handle.streams then Done(h, handle.streams[k.stream]) else StreamWait(h)
    case StreamWait(h) => StreamCheck(h)
    case StreamCheck(h) => if k.stream in handle.streams then Done(h, handle.streams[k.stream]) else StreamLoad(h)
    case StreamLoad(h) =>
      if !io.ok then Failed
      else if (handle.basinId, k.stream) in w.streamIds then StreamBlock(h, w.streamIds[(handle.basinId, k.stream)])
      else if k.create then StreamCreate(h)
      else Failed
    case StreamBlock(h, _) => if io.ok then StreamInsert(h, io.address) else Failed
    case StreamCreate(h) => if io.ok then StreamInit(h, io.id) else Failed
    case StreamInit(h, _) => if io.ok then StreamInsert(h, io.address) else Failed
    case StreamInsert(h, a) => StreamUnlock(h, a)
    case StreamUnlock(h, a) => Done(h, a)
  }

  function NextPc(w: World, k: Task, io: Io): Pc
    requires Feasible(w, k, io)
  {
    if k.pc.Start? || k.pc.BasinWait? || InBasinSection(k.pc) then NextBasinPc(w, k, io)
    else NextStreamPc(w, k, w.handles[k.pc.h], io)
  }

  function Spawned(w: World, address: nat, k: Task, key: StreamKey, cursor: Cursor): World
    requires HasHandle(k.pc)
  {
    w.(actors := w.actors[address := StreamActor(k.pc.h, k.stream, key, cursor)])
  }

  function WithCached(handles: map<nat, BasinHandle>, h: nat, name: Name, a: nat): map<nat, BasinHandle>
    requires h in handles
  {
    handles[h := handles[h].(streams := handles[h].streams[name := a])]
  }

  /** What a caller's step does to what callers share. */
  function Effect(w: World, k: Task, io: Io): World
    requires Feasible(w, k, io)
  {
    match k.pc
    case BasinCreate => if io.ok then w.(basinIds := w.basinIds[k.basin := io.id]) else w
    case BasinInsert(basinId) =>
      w.(handles := w.handles[io.address := BasinHandle(k.basin, basinId, map[])],
         basins := w.basins[k.basin := io.address])
    case StreamBlock(h, sid) =>
      var key := StreamKey(w.handles[h].basinId, sid);
      if io.ok then Spawned(w, io.address, k, key, L.Reloaded(w.disks[key].block)) else w
    case StreamCreate(h) =>
      var basinId := w.handles[h].basinId;
      if io.ok then w.(streamIds := w.streamIds[(basinId, k.stream) := io.id],
                       disks := w.disks[StreamKey(basinId, io.id) := Disk(None, map[])])
      else w
    case StreamInit(h, sid) =>
      var key := StreamKey(w.handles[h].basinId, sid);
      if io.ok then Spawned(w, io.address, k, key, DEFAULT_CURSOR).(
                      disks := w.disks[key := w.disks[key].(block := Some(DEFAULT_CURSOR.block))])
      else w
    case StreamInsert(h, a) => w.(handles := WithCached(w.handles, h, k.stream, a))
    case _ => w
  }

  function Moved(tasks: map<nat, Task>, t: nat, pc: Pc): map<nat, Task>
    requires t in tasks
  {
    tasks[t := tasks[t].(pc := pc)]
  }

  /** The basin lock goes with its section: taken on the way in, given back on the way out. */
  function BasinInitAfter(basinInit: Option<nat>, t: nat, before: Pc, after: Pc): Option<nat> {
    if InBasinSection(after) then Some(t) else if InBasinSection(before) then None else basinInit
  }

  function StreamInitsAfter(streamInits: map<nat, nat>, t: nat, before: Pc, after: Pc): map<nat, nat> {
    if InStreamSection(after) then streamInits[after.h := t]
    else if InStreamSection(before) then streamInits - {before.h}
    else streamInits
  }

  /** Caller `t` goes to `pc`, with the locks that go with it, and what callers share becomes `w`. */
  function Stepped(s: State, t: nat, pc: Pc, w: World): State
    requires t in s.tasks
  {
    State(w.basinIds, w.streamIds, w.disks, w.basins, BasinInitAfter(s.basinInit, t, s.tasks[t].pc, pc), w.handles,
          StreamInitsAfter(s.streamInits, t, s.tasks[t].pc, pc), w.actors, Moved(s.tasks, t, pc))
  }

  /** Dropping a caller drops the only handle of an actor it has started but not yet cached. */
  function DropEffect(w: World, pc: Pc): World {
    if pc.StreamInsert? then w.(actors := w.actors - {pc.actor}) else w
  }

  function LogOf(s: State, a: nat): L.Log
    requires a in s.actors && s.actors[a].key in s.disks
  {
    var disk := s.disks[s.actors[a].key];
    L.Log(true, disk.block, disk.stored, Some(s.actors[a].cursor))
  }

  function Next(s: State, e: Event): State
    requires Enabled(s, e)
  {
    match e
    case Arrive(t, basin, stream, create) => s.(tasks := s.tasks[t := Task(basin, stream, create, Start)])
    case Advance(t, io) => Stepped(s, t, NextPc(WorldOf(s), s.tasks[t], io), Effect(WorldOf(s), s.tasks[t], io))
    case Cancel(t) => Stepped(s, t, Failed, DropEffect(WorldOf(s), s.tasks[t].pc))
    case ActorAppend(a, data, ok) =>
      var log := L.Next(LogOf(s, a), L.Append(data, ok));
      s.(disks := s.disks[s.actors[a].key := Disk(log.block, log.stored)],
         actors := s.actors[a := s.actors[a].(cursor := log.live.value)])
    case Restart => State(s.basinIds, s.streamIds, s.disks, map[], None, map[], map[], map[], map[])
  }

  predicate Runnable(s: State, es: seq<Event>)
    decreases |es|
  {
    es == [] || (Enabled(s, es[0]) && Runnable(Next(s, es[0]), es[1..]))
  }

  function Run(s: State, es: seq<Event>): State
    requires Runnable(s, es)
    decreases |es|
  {
    if es == [] then s else Run(Next(s, es[0]), es[1..])
  }

  // Invariants, each over the parts of the state it speaks of

  ghost predicate IdsOk(basinIds: map<Name, u128>, streamIds: map<(u128, Name), u128>, disks: map<StreamKey, Disk>) {
    && (forall n, m | n in basinIds && m in basinIds && basinIds[n] == basinIds[m] :: n == m)
    && (forall p, q | p in streamIds && q in streamIds && streamIds[p] == streamIds[q] :: p == q)
    && (forall p | p in streamIds :: StreamKey(p.0, streamIds[p]) in disks)
    && (forall key | key in disks :: key.streamId in streamIds.Values)
  }

  /** The lock's holder is in its section, and nobody else is. */
  ghost predicate BasinLockOk(basinInit: Option<nat>, tasks: map<nat, Task>) {
    && (basinInit.Some? ==> basinInit.value in tasks && InBasinSection(tasks[basinInit.value].pc))
    && (forall t | t in tasks && InBasinSection(tasks[t].pc) :: basinInit == Some(t))
  }

  ghost predicate StreamLocksOk(streamInits: map<nat, nat>, tasks: map<nat, Task>) {
    && (forall h | h in streamInits ::
          streamInits[h] in tasks && InStreamSection(tasks[streamInits[h]].pc) && tasks[streamInits[h]].pc.h == h)
    && (forall t | t in tasks && InStreamSection(tasks[t].pc) ::
          tasks[t].pc.h in streamInits && streamInits[tasks[t].pc.h] == t)
  }

  ghost predicate LocksOk(basinInit: Option<nat>, streamInits: map<nat, nat>, tasks: map<nat, Task>) {
    BasinLockOk(basinInit, tasks) && StreamLocksOk(streamInits, tasks)
  }

  /** A basin is cached under its name and nowhere else, with the identifier bound on disk. */
  ghost predicate BasinsOk(basins: map<Name, nat>, handles: map<nat, BasinHandle>, basinIds: map<Name, u128>) {
    && (forall n | n in basins :: basins[n] in handles && handles[basins[n]].name == n)
    && (forall h | h in handles :: HandleOk(basins, basinIds, handles[h], h))
  }

  ghost predicate HandleOk(basins: map<Name, nat>, basinIds: map<Name, u128>, handle: BasinHandle, h: nat) {
    && handle.name in basins && basins[handle.name] == h
    && handle.name in basinIds && basinIds[handle.name] == handle.basinId
  }

  /** The caller's stream is bound to `sid`. */
  predicate Bound(w: World, basinId: u128, stream: Name, sid: u128) {
    (basinId, stream) in w.streamIds && w.streamIds[(basinId, stream)] == sid
  }

  ghost predicate StreamTaskOk(w: World, k: Task, handle: BasinHandle) {
    var pc := k.pc;
    && (pc.StreamLoad? || pc.StreamBlock? || pc.StreamCreate? || pc.StreamInit? || pc.StreamInsert? ==>
          k.stream !in handle.streams)
    && (pc.StreamBlock? ==> Bound(w, handle.basinId, k.stream, pc.streamId))
    && (pc.StreamCreate? ==> (handle.basinId, k.stream) !in w.streamIds)
    && (pc.StreamInit? ==>
          && Bound(w, handle.basinId, k.stream, pc.streamId)
          && StreamKey(handle.basinId, pc.streamId) in w.disks
          && w.disks[StreamKey(handle.basinId, pc.streamId)] == Disk(None, map[]))
    && (pc.StreamInsert? ==> pc.actor in w.actors && w.actors[pc.actor].h == pc.h && w.actors[pc.actor].name == k.stream)
    && (pc.StreamUnlock? ==> k.stream in handle.streams && handle.streams[k.stream] == pc.actor)
    && (pc.Done? ==> k.stream in handle.streams && handle.streams[k.stream] == pc.actor)
  }

  ghost predicate BasinTaskOk(w: World, k: Task) {
    && (k.pc.BasinLoad? || k.pc.BasinCreate? || k.pc.BasinInsert? ==> k.basin !in w.basins)
    && (k.pc.BasinCreate? ==> k.basin !in w.basinIds)
    && (k.pc.BasinInsert? ==> k.basin in w.basinIds && w.basinIds[k.basin] == k.pc.basinId)
  }

  /** What a caller knows at each point. */
  ghost predicate TaskOk(w: World, k: Task) {
    && BasinTaskOk(w, k)
    && (HasHandle(k.pc) ==>
          && k.basin in w.basins && w.basins[k.basin] == k.pc.h && k.pc.h in w.handles
          && StreamTaskOk(w, k, w.handles[k.pc.h]))
  }

  ghost predicate TasksOk(w: World, tasks: map<nat, Task>) {
    forall t | t in tasks :: TaskOk(w, tasks[t])
  }

  /** Started by the caller that holds the stream lock, and not yet in the cache. */
  ghost predicate Pending(actor: StreamActor, a: nat, handle: BasinHandle, streamInits: map<nat, nat>, tasks: map<nat, Task>) {
    && actor.name !in handle.streams
    && actor.h in streamInits && streamInits[actor.h] in tasks
    && tasks[streamInits[actor.h]].pc == StreamInsert(actor.h, a) && tasks[streamInits[actor.h]].stream == actor.name
  }

  predicate Cached(actor: StreamActor, a: nat, handle: BasinHandle) {
    actor.name in handle.streams && handle.streams[actor.name] == a
  }

  ghost predicate ActorOk(actor: StreamActor, a: nat, handles: map<nat, BasinHandle>, streamIds: map<(u128, Name), u128>,
                          streamInits: map<nat, nat>, tasks: map<nat, Task>)
  {
    && actor.h in handles
    && actor.key.basinId == handles[actor.h].basinId
    && (actor.key.basinId, actor.name) in streamIds && streamIds[(actor.key.basinId, actor.name)] == actor.key.streamId
    && (Pending(actor, a, handles[actor.h], streamInits, tasks) || Cached(actor, a, handles[actor.h]))
  }

  ghost predicate ActorsOk(actors: map<nat, StreamActor>, handles: map<nat, BasinHandle>,
                           streamIds: map<(u128, Name), u128>, streamInits: map<nat, nat>, tasks: map<nat, Task>)
  {
    forall a | a in actors :: ActorOk(actors[a], a, handles, streamIds, streamInits, tasks)
  }

  /** Every cached stream handle leads to a running actor started for that name. */
  ghost predicate CacheOk(handles: map<nat, BasinHandle>, actors: map<nat, StreamActor>) {
    forall h, n | h in handles && n in handles[h].streams ::
      var a := handles[h].streams[n];
      a in actors && actors[a].h == h && actors[a].name == n
  }

  ghost predicate Inv(s: State) {
    && IdsOk(s.basinIds, s.streamIds, s.disks)
    && LocksOk(s.basinInit, s.streamInits, s.tasks)
    && BasinsOk(s.basins, s.handles, s.basinIds)
    && TasksOk(WorldOf(s), s.tasks)
    && ActorsOk(s.actors, s.handles, s.streamIds, s.streamInits, s.tasks)
    && CacheOk(s.handles, s.actors)
  }

  // Locks

  predicate MayEnterBasin(basinInit: Option<nat>, before: Pc, after: Pc) {
    InBasinSection(after) && !InBasinSection(before) ==> basinInit.None?
  }

  predicate MayEnterStream(streamInits: map<nat, nat>, before: Pc, after: Pc) {
    InStreamSection(after) ==> if InStreamSection(before) then before.h == after.h else after.h !in streamInits
  }

  /** A section is entered only while its lock is free. */
  predicate MayMove(basinInit: Option<nat>, streamInits: map<nat, nat>, before: Pc, after: Pc) {
    MayEnterBasin(basinInit, before, after) && MayEnterStream(streamInits, before, after)
  }

  lemma MoveKeepsBasinLock(basinInit: Option<nat>, tasks: map<nat, Task>, t: nat, pc: Pc)
    requires BasinLockOk(basinInit, tasks) && t in tasks && MayEnterBasin(basinInit, tasks[t].pc, pc)
    ensures BasinLockOk(BasinInitAfter(basinInit, t, tasks[t].pc, pc), Moved(tasks, t, pc))
  {
  }

  lemma MoveKeepsStreamLocks(streamInits: map<nat, nat>, tasks: map<nat, Task>, t: nat, pc: Pc)
    requires StreamLocksOk(streamInits, tasks) && t in tasks && MayEnterStream(streamInits, tasks[t].pc, pc)
    ensures StreamLocksOk(StreamInitsAfter(streamInits, t, tasks[t].pc, pc), Moved(tasks, t, pc))
  {
  }

  lemma MoveKeepsLocks(basinInit: Option<nat>, streamInits: map<nat, nat>, tasks: map<nat, Task>, t: nat, pc: Pc)
    requires LocksOk(basinInit, streamInits, tasks) && t in tasks && MayMove(basinInit, streamInits, tasks[t].pc, pc)
    ensures LocksOk(BasinInitAfter(basinInit, t, tasks[t].pc, pc), StreamInitsAfter(streamInits, t, tasks[t].pc, pc),
                    Moved(tasks, t, pc))
  {
    MoveKeepsBasinLock(basinInit, tasks, t, pc);
    MoveKeepsStreamLocks(streamInits, tasks, t, pc);
  }

  /** A caller's locks are its own: a move leaves those of others with them. */
  lemma MoveKeepsOthersLocks(streamInits: map<nat, nat>, tasks: map<nat, Task>, t: nat, pc: Pc)
    requires StreamLocksOk(streamInits, tasks) && t in tasks && MayEnterStream(streamInits, tasks[t].pc, pc)
    ensures var streamInits' := StreamInitsAfter(streamInits, t, tasks[t].pc, pc);
            && (forall h | h in streamInits && streamInits[h] != t :: h in streamInits' && streamInits'[h] == streamInits[h])
            && (InStreamSection(pc) ==> pc.h in streamInits' && streamInits'[pc.h] == t)
  {
  }

  lemma AdvanceMayMove(s: State, k: Task, io: Io)
    requires MayAdvance(s, k, io)
    ensures MayMove(s.basinInit, s.streamInits, k.pc, NextPc(WorldOf(s), k, io))
  {
  }

  // Bindings, handles and caches

  lemma NewBasinIdKeepsIds(basinIds: map<Name, u128>, streamIds: map<(u128, Name), u128>, disks: map<StreamKey, Disk>,
                           name: Name, id: u128)
    requires IdsOk(basinIds, streamIds, disks) && id !in basinIds.Values
    ensures IdsOk(basinIds[name := id], streamIds, disks)
  {
    forall n | n in basinIds ensures basinIds[n] != id {
      assert basinIds[n] in basinIds.Values;
    }
  }

  lemma NewStreamKeepsIds(basinIds: map<Name, u128>, streamIds: map<(u128, Name), u128>, disks: map<StreamKey, Disk>,
                          p: (u128, Name), id: u128, disk: Disk)
    requires IdsOk(basinIds, streamIds, disks) && p !in streamIds && id !in streamIds.Values
    ensures IdsOk(basinIds, streamIds[p := id], disks[StreamKey(p.0, id) := disk])
  {
    var streamIds', disks' := streamIds[p := id], disks[StreamKey(p.0, id) := disk];
    forall q | q in streamIds ensures streamIds[q] != id {
      assert streamIds[q] in streamIds.Values;
    }
    forall key | key in disks' ensures key.streamId in streamIds'.Values {
      if key.streamId == id {
        assert streamIds'[p] == id;
      } else {
        var q :| q in streamIds && streamIds[q] == key.streamId;
        assert streamIds'[q] == key.streamId;
      }
    }
  }

  lemma ChangedDiskKeepsIds(basinIds: map<Name, u128>, streamIds: map<(u128, Name), u128>, disks: map<StreamKey, Disk>,
                            key: StreamKey, disk: Disk)
    requires IdsOk(basinIds, streamIds, disks) && key in disks
    ensures IdsOk(basinIds, streamIds, disks[key := disk])
  {
  }

  lemma AdvanceKeepsIds(w: World, k: Task, io: Io)
    requires IdsOk(w.basinIds, w.streamIds, w.disks) && Feasible(w, k, io) && TaskOk(w, k)
    ensures var w' := Effect(w, k, io); IdsOk(w'.basinIds, w'.streamIds, w'.disks)
  {
    if io.ok {
      if k.pc.BasinCreate? {
        NewBasinIdKeepsIds(w.basinIds, w.streamIds, w.disks, k.basin, io.id);
      } else if k.pc.StreamCreate? {
        NewStreamKeepsIds(w.basinIds, w.streamIds, w.disks, (w.handles[k.pc.h].basinId, k.stream), io.id, Disk(None, map[]));
      } else if k.pc.StreamInit? {
        var key := StreamKey(w.handles[k.pc.h].basinId, k.pc.streamId);
        ChangedDiskKeepsIds(w.basinIds, w.streamIds, w.disks, key, Effect(w, k, io).disks[key]);
      }
    }
  }

  lemma NewBasinIdKeepsBasins(basins: map<Name, nat>, handles: map<nat, BasinHandle>, basinIds: map<Name, u128>,
                              name: Name, id: u128)
    requires BasinsOk(basins, handles, basinIds) && name !in basinIds
    ensures BasinsOk(basins, handles, basinIds[name := id])
  {
    forall h | h in handles ensures HandleOk(basins, basinIds[name := id], handles[h], h) {
      assert HandleOk(basins, basinIds, handles[h], h);
    }
  }

  lemma NewHandleKeepsBasins(basins: map<Name, nat>, handles: map<nat, BasinHandle>, basinIds: map<Name, u128>,
                             name: Name, h: nat, handle: BasinHandle)
    requires BasinsOk(basins, handles, basinIds) && name !in basins && h !in handles
    requires handle.name == name && name in basinIds && basinIds[name] == handle.basinId
    ensures BasinsOk(basins[name := h], handles[h := handle], basinIds)
  {
    var basins', handles' := basins[name := h], handles[h := handle];
    forall g | g in handles' ensures HandleOk(basins', basinIds, handles'[g], g) {
      if g != h {
        assert HandleOk(basins, basinIds, handles[g], g);
      }
    }
  }

  lemma CachingKeepsBasins(basins: map<Name, nat>, handles: map<nat, BasinHandle>, basinIds: map<Name, u128>,
                           h: nat, name: Name, a: nat)
    requires BasinsOk(basins, handles, basinIds) && h in handles
    ensures BasinsOk(basins, WithCached(handles, h, name, a), basinIds)
  {
    var handles' := WithCached(handles, h, name, a);
    forall g | g in handles' ensures HandleOk(basins, basinIds, handles'[g], g) {
      assert HandleOk(basins, basinIds, handles[g], g);
    }
  }

  lemma AdvanceKeepsBasins(w: World, k: Task, io: Io)
    requires BasinsOk(w.basins, w.handles, w.basinIds) && Feasible(w, k, io) && TaskOk(w, k)
    ensures var w' := Effect(w, k, io); BasinsOk(w'.basins, w'.handles, w'.basinIds)
  {
    if k.pc.BasinCreate? && io.ok {
      NewBasinIdKeepsBasins(w.basins, w.handles, w.basinIds, k.basin, io.id);
    } else if k.pc.BasinInsert? {
      NewHandleKeepsBasins(w.basins, w.handles, w.basinIds, k.basin, io.address, BasinHandle(k.basin, k.pc.basinId, map[]));
    } else if k.pc.StreamInsert? {
      CachingKeepsBasins(w.basins, w.handles, w.basinIds, k.pc.h, k.stream, k.pc.actor);
    }
  }

  lemma AdvanceKeepsCache(w: World, k: Task, io: Io)
    requires CacheOk(w.handles, w.actors) && Feasible(w, k, io) && TaskOk(w, k)
    ensures CacheOk(Effect(w, k, io).handles, Effect(w, k, io).actors)
  {
    if k.pc.BasinInsert? {
      NewHandleKeepsCache(w.handles, w.actors, io.address, BasinHandle(k.basin, k.pc.basinId, map[]));
    } else if k.pc.StreamInsert? {
      CachingKeepsCache(w.handles, w.actors, k.pc.h, k.stream, k.pc.actor);
    } else if (k.pc.StreamBlock? || k.pc.StreamInit?) && io.ok {
      NewActorKeepsCache(w.handles, w.actors, io.address, Effect(w, k, io).actors[io.address]);
    }
  }

  lemma NewHandleKeepsCache(handles: map<nat, BasinHandle>, actors: map<nat, StreamActor>, h: nat, handle: BasinHandle)
    requires CacheOk(handles, actors) && handle.streams == map[]
    ensures CacheOk(handles[h := handle], actors)
  {
  }

  lemma CachingKeepsCache(handles: map<nat, BasinHandle>, actors: map<nat, StreamActor>, h: nat, name: Name, a: nat)
    requires CacheOk(handles, actors) && h in handles && a in actors && actors[a].h == h && actors[a].name == name
    ensures CacheOk(WithCached(handles, h, name, a), actors)
  {
  }

  lemma NewActorKeepsCache(handles: map<nat, BasinHandle>, actors: map<nat, StreamActor>, a: nat, actor: StreamActor)
    requires CacheOk(handles, actors) && a !in actors
    ensures CacheOk(handles, actors[a := actor])
  {
  }

  lemma HandlesHaveOwnIds(basins: map<Name, nat>, handles: map<nat, BasinHandle>, basinIds: map<Name, u128>,
                          streamIds: map<(u128, Name), u128>, disks: map<StreamKey, Disk>, h: nat, g: nat)
    requires BasinsOk(basins, handles, basinIds) && IdsOk(basinIds, streamIds, disks)
    requires h in handles && g in handles && handles[h].basinId == handles[g].basinId
    ensures h == g
  {
    assert HandleOk(basins, basinIds, handles[h], h) && HandleOk(basins, basinIds, handles[g], g);
  }

  // What callers know

  lemma OwnBasinStep(w: World, k: Task, io: Io)
    requires BasinsOk(w.basins, w.handles, w.basinIds) && Feasible(w, k, io) && TaskOk(w, k)
    requires k.pc.Start? || k.pc.BasinWait? || InBasinSection(k.pc)
    ensures TaskOk(Effect(w, k, io), k.(pc := NextBasinPc(w, k, io)))
  {
  }

  lemma OwnStreamStep(w: World, k: Task, io: Io)
    requires Feasible(w, k, io) && TaskOk(w, k)
    requires k.pc.StreamStart? || k.pc.StreamWait? || InStreamSection(k.pc)
    ensures TaskOk(Effect(w, k, io), k.(pc := NextStreamPc(w, k, w.handles[k.pc.h], io)))
  {
  }

  lemma OwnStep(w: World, k: Task, io: Io)
    requires BasinsOk(w.basins, w.handles, w.basinIds) && Feasible(w, k, io) && TaskOk(w, k)
    ensures TaskOk(Effect(w, k, io), k.(pc := NextPc(w, k, io)))
  {
    if k.pc.Start? || k.pc.BasinWait? || InBasinSection(k.pc) {
      OwnBasinStep(w, k, io);
    } else {
      OwnStreamStep(w, k, io);
    }
  }

  /** Two callers that are not in one section at the same time. */
  predicate Apart(w: World, k: Task, other: Task) {
    && !(InBasinSection(k.pc) && InBasinSection(other.pc))
    && (InStreamSection(k.pc) && InStreamSection(other.pc) ==>
          && k.pc.h in w.handles && other.pc.h in w.handles
          && k.pc.h != other.pc.h && w.handles[k.pc.h].basinId != w.handles[other.pc.h].basinId)
  }

  /** Locks keep callers apart, in their own basins' identifiers as well. */
  lemma LocksKeepApart(s: State, t: nat, u: nat)
    requires Inv(s) && t in s.tasks && u in s.tasks && t != u
    ensures Apart(WorldOf(s), s.tasks[t], s.tasks[u])
  {
    var k, other := s.tasks[t], s.tasks[u];
    if InStreamSection(k.pc) && InStreamSection(other.pc) {
      assert TaskOk(WorldOf(s), k) && TaskOk(WorldOf(s), other);
      if s.handles[k.pc.h].basinId == s.handles[other.pc.h].basinId {
        HandlesHaveOwnIds(s.basins, s.handles, s.basinIds, s.streamIds, s.disks, k.pc.h, other.pc.h);
      }
    }
  }

  lemma BasinStepKeepsOther(w: World, k: Task, io: Io, other: Task)
    requires Feasible(w, k, io) && TaskOk(w, k) && TaskOk(w, other) && Apart(w, k, other)
    requires k.pc.BasinCreate? || k.pc.BasinInsert?
    ensures TaskOk(Effect(w, k, io), other)
  {
  }

  lemma StreamStepKeepsOther(w: World, k: Task, io: Io, other: Task)
    requires Feasible(w, k, io) && TaskOk(w, k) && TaskOk(w, other) && Apart(w, k, other)
    requires k.pc.StreamBlock? || k.pc.StreamInit? || k.pc.StreamCreate?
    ensures TaskOk(Effect(w, k, io), other)
  {
  }

  lemma CachingKeepsOther(w: World, k: Task, io: Io, other: Task)
    requires Feasible(w, k, io) && TaskOk(w, k) && TaskOk(w, other) && Apart(w, k, other) && k.pc.StreamInsert?
    ensures TaskOk(Effect(w, k, io), other)
  {
  }

  lemma AdvanceKeepsOther(w: World, k: Task, io: Io, other: Task)
    requires Feasible(w, k, io) && TaskOk(w, k) && TaskOk(w, other) && Apart(w, k, other)
    ensures TaskOk(Effect(w, k, io), other)
  {
    if k.pc.BasinCreate? || k.pc.BasinInsert? {
      BasinStepKeepsOther(w, k, io, other);
    } else if k.pc.StreamBlock? || k.pc.StreamInit? || k.pc.StreamCreate? {
      StreamStepKeepsOther(w, k, io, other);
    } else if k.pc.StreamInsert? {
      CachingKeepsOther(w, k, io, other);
    }
  }

  lemma AdvanceKeepsTasks(s: State, t: nat, io: Io)
    requires Inv(s) && t in s.tasks && MayAdvance(s, s.tasks[t], io)
    ensures TasksOk(Effect(WorldOf(s), s.tasks[t], io), Moved(s.tasks, t, NextPc(WorldOf(s), s.tasks[t], io)))
  {
    var w, k := WorldOf(s), s.tasks[t];
    OwnStep(w, k, io);
    forall u | u in s.tasks && u != t ensures TaskOk(Effect(w, k, io), s.tasks[u]) {
      LocksKeepApart(s, t, u);
      AdvanceKeepsOther(w, k, io, s.tasks[u]);
    }
  }

  // Actors

  /** Callers other than one that is about to cache an actor do not matter to actors. */
  lemma MoveKeepsActors(actors: map<nat, StreamActor>, handles: map<nat, BasinHandle>, streamIds: map<(u128, Name), u128>,
                        streamInits: map<nat, nat>, tasks: map<nat, Task>, t: nat, pc: Pc, streamInits': map<nat, nat>)
    requires ActorsOk(actors, handles, streamIds, streamInits, tasks)
    requires t in tasks && !tasks[t].pc.StreamInsert?
    requires forall h | h in streamInits && streamInits[h] != t :: h in streamInits' && streamInits'[h] == streamInits[h]
    ensures ActorsOk(actors, handles, streamIds, streamInits', Moved(tasks, t, pc))
  {
    forall a | a in actors
      ensures ActorOk(actors[a], a, handles, streamIds, streamInits', Moved(tasks, t, pc))
    {
      assert ActorOk(actors[a], a, handles, streamIds, streamInits, tasks);
    }
  }

  lemma NewHandleKeepsActors(actors: map<nat, StreamActor>, handles: map<nat, BasinHandle>,
                             streamIds: map<(u128, Name), u128>, streamInits: map<nat, nat>, tasks: map<nat, Task>,
                             h: nat, handle: BasinHandle)
    requires ActorsOk(actors, handles, streamIds, streamInits, tasks) && h !in handles
    ensures ActorsOk(actors, handles[h := handle], streamIds, streamInits, tasks)
  {
    forall a | a in actors
      ensures ActorOk(actors[a], a, handles[h := handle], streamIds, streamInits, tasks)
    {
      assert ActorOk(actors[a], a, handles, streamIds, streamInits, tasks);
    }
  }

  lemma NewStreamKeepsActors(actors: map<nat, StreamActor>, handles: map<nat, BasinHandle>,
                             streamIds: map<(u128, Name), u128>, streamInits: map<nat, nat>, tasks: map<nat, Task>,
                             p: (u128, Name), id: u128)
    requires ActorsOk(actors, handles, streamIds, streamInits, tasks) && p !in streamIds
    ensures ActorsOk(actors, handles, streamIds[p := id], streamInits, tasks)
  {
    forall a | a in actors ensures ActorOk(actors[a], a, handles, streamIds[p := id], streamInits, tasks) {
      assert ActorOk(actors[a], a, handles, streamIds, streamInits, tasks);
    }
  }

  lemma SpawnKeepsActors(actors: map<nat, StreamActor>, handles: map<nat, BasinHandle>,
                         streamIds: map<(u128, Name), u128>, streamInits: map<nat, nat>, tasks: map<nat, Task>,
                         a: nat, actor: StreamActor)
    requires ActorsOk(actors, handles, streamIds, streamInits, tasks)
    requires ActorOk(actor, a, handles, streamIds, streamInits, tasks)
    ensures ActorsOk(actors[a := actor], handles, streamIds, streamInits, tasks)
  {
  }

  /** The actor a caller has started and is about to cache. */
  lemma StartedActorIsPending(w: World, k: Task, io: Io, streamInits: map<nat, nat>, tasks: map<nat, Task>, t: nat)
    requires Feasible(w, k, io) && TaskOk(w, k) && io.ok && (k.pc.StreamBlock? || k.pc.StreamInit?)
    requires t in tasks && tasks[t] == k.(pc := StreamInsert(k.pc.h, io.address))
    requires k.pc.h in streamInits && streamInits[k.pc.h] == t
    ensures ActorOk(Effect(w, k, io).actors[io.address], io.address, w.handles, w.streamIds, streamInits, tasks)
  {
  }

  lemma CachingKeepsActors(actors: map<nat, StreamActor>, handles: map<nat, BasinHandle>,
                           streamIds: map<(u128, Name), u128>, streamInits: map<nat, nat>, tasks: map<nat, Task>,
                           t: nat, h: nat, a: nat)
    requires ActorsOk(actors, handles, streamIds, streamInits, tasks)
    requires h in handles && h in streamInits && streamInits[h] == t && t in tasks && tasks[t].pc == StreamInsert(h, a)
    requires a in actors && actors[a].h == h && actors[a].name == tasks[t].stream && tasks[t].stream !in handles[h].streams
    ensures ActorsOk(actors, WithCached(handles, h, tasks[t].stream, a), streamIds, streamInits,
                     Moved(tasks, t, StreamUnlock(h, a)))
  {
    var handles', tasks' := WithCached(handles, h, tasks[t].stream, a), Moved(tasks, t, StreamUnlock(h, a));
    forall b | b in actors ensures ActorOk(actors[b], b, handles', streamIds, streamInits, tasks') {
      assert ActorOk(actors[b], b, handles, streamIds, streamInits, tasks);
    }
  }

  lemma EffectKeepsActors(w: World, k: Task, io: Io, streamInits: map<nat, nat>, tasks: map<nat, Task>, t: nat)
    requires Feasible(w, k, io) && TaskOk(w, k) && !k.pc.StreamInsert?
    requires ActorsOk(w.actors, w.handles, w.streamIds, streamInits, tasks)
    requires t in tasks && tasks[t] == k.(pc := NextPc(w, k, io))
    requires InStreamSection(tasks[t].pc) ==> tasks[t].pc.h in streamInits && streamInits[tasks[t].pc.h] == t
    ensures var w' := Effect(w, k, io); ActorsOk(w'.actors, w'.handles, w'.streamIds, streamInits, tasks)
  {
    if k.pc.BasinInsert? {
      NewHandleKeepsActors(w.actors, w.handles, w.streamIds, streamInits, tasks, io.address,
                           BasinHandle(k.basin, k.pc.basinId, map[]));
    } else if k.pc.StreamCreate? && io.ok {
      NewStreamKeepsActors(w.actors, w.handles, w.streamIds, streamInits, tasks, (w.handles[k.pc.h].basinId, k.stream), io.id);
    } else if (k.pc.StreamBlock? || k.pc.StreamInit?) && io.ok {
      StartedActorIsPending(w, k, io, streamInits, tasks, t);
      SpawnKeepsActors(w.actors, w.handles, w.streamIds, streamInits, tasks, io.address, Effect(w, k, io).actors[io.address]);
    }
  }

  lemma AdvanceKeepsActors(s: State, t: nat, io: Io)
    requires Inv(s) && t in s.tasks && MayAdvance(s, s.tasks[t], io) && !s.tasks[t].pc.StreamInsert?
    ensures var s' := Next(s, Advance(t, io)); ActorsOk(s'.actors, s'.handles, s'.streamIds, s'.streamInits, s'.tasks)
  {
    var w, k := WorldOf(s), s.tasks[t];
    var pc' := NextPc(w, k, io);
    var inits' := StreamInitsAfter(s.streamInits, t, k.pc, pc');
    AdvanceMayMove(s, k, io);
    MoveKeepsOthersLocks(s.streamInits, s.tasks, t, pc');
    MoveKeepsActors(s.actors, s.handles, s.streamIds, s.streamInits, s.tasks, t, pc', inits');
    EffectKeepsActors(w, k, io, inits', Moved(s.tasks, t, pc'), t);
  }

  lemma InsertKeepsActors(s: State, t: nat, io: Io)
    requires Inv(s) && t in s.tasks && MayAdvance(s, s.tasks[t], io) && s.tasks[t].pc.StreamInsert?
    ensures var s' := Next(s, Advance(t, io)); ActorsOk(s'.actors, s'.handles, s'.streamIds, s'.streamInits, s'.tasks)
  {
    var k, s' := s.tasks[t], Next(s, Advance(t, io));
    assert TaskOk(WorldOf(s), k);
    assert s'.streamInits == s.streamInits by {
      assert k.pc.h in s.streamInits && s.streamInits[k.pc.h] == t;
    }
    assert ActorsOk(s'.actors, s'.handles, s'.streamIds, s.streamInits, s'.tasks) by {
      CachingKeepsActors(s.actors, s.handles, s.streamIds, s.streamInits, s.tasks, t, k.pc.h, k.pc.actor);
    }
  }

  lemma AdvanceKeepsInv(s: State, t: nat, io: Io)
    requires Inv(s) && t in s.tasks && MayAdvance(s, s.tasks[t], io)
    ensures Inv(Next(s, Advance(t, io)))
  {
    var w, k := WorldOf(s), s.tasks[t];
    var s' := Next(s, Advance(t, io));
    assert TaskOk(w, k);
    assert IdsOk(s'.basinIds, s'.streamIds, s'.disks) by { AdvanceKeepsIds(w, k, io); }
    assert LocksOk(s'.basinInit, s'.streamInits, s'.tasks) by {
      AdvanceMayMove(s, k, io);
      MoveKeepsLocks(s.basinInit, s.streamInits, s.tasks, t, NextPc(w, k, io));
    }
    assert BasinsOk(s'.basins, s'.handles, s'.basinIds) by { AdvanceKeepsBasins(w, k, io); }
    assert TasksOk(WorldOf(s'), s'.tasks) by { AdvanceKeepsTasks(s, t, io); }
    assert ActorsOk(s'.actors, s'.handles, s'.streamIds, s'.streamInits, s'.tasks) by {
      if k.pc.StreamInsert? { InsertKeepsActors(s, t, io); } else { AdvanceKeepsActors(s, t, io); }
    }
    assert CacheOk(s'.handles, s'.actors) by { AdvanceKeepsCache(w, k, io); }
  }

  // Dropped callers

  lemma DroppingKeepsActors(actors: map<nat, StreamActor>, handles: map<nat, BasinHandle>,
                            streamIds: map<(u128, Name), u128>, streamInits: map<nat, nat>, tasks: map<nat, Task>,
                            t: nat, h: nat, a: nat)
    requires ActorsOk(actors, handles, streamIds, streamInits, tasks)
    requires t in tasks && tasks[t].pc == StreamInsert(h, a) && h in streamInits && streamInits[h] == t
    ensures ActorsOk(actors - {a}, handles, streamIds, streamInits - {h}, Moved(tasks, t, Failed))
  {
    var actors', inits', tasks' := actors - {a}, streamInits - {h}, Moved(tasks, t, Failed);
    forall b | b in actors' ensures ActorOk(actors'[b], b, handles, streamIds, inits', tasks') {
      assert ActorOk(actors[b], b, handles, streamIds, streamInits, tasks);
    }
  }

  lemma DroppingKeepsCache(handles: map<nat, BasinHandle>, actors: map<nat, StreamActor>, a: nat)
    requires CacheOk(handles, actors)
    requires a in actors && (actors[a].h in handles ==> actors[a].name !in handles[actors[a].h].streams)
    ensures CacheOk(handles, actors - {a})
  {
  }

  lemma DroppingKeepsOther(w: World, k: Task, other: Task)
    requires TaskOk(w, k) && TaskOk(w, other) && Apart(w, k, other) && k.pc.StreamInsert?
    ensures TaskOk(DropEffect(w, k.pc), other)
  {
  }

  lemma CancelKeepsActors(s: State, t: nat)
    requires Inv(s) && t in s.tasks
    ensures var s' := Next(s, Cancel(t));
            ActorsOk(s'.actors, s'.handles, s'.streamIds, s'.streamInits, s'.tasks) && CacheOk(s'.handles, s'.actors)
  {
    var k := s.tasks[t];
    assert TaskOk(WorldOf(s), k);
    if k.pc.StreamInsert? {
      DroppingKeepsActors(s.actors, s.handles, s.streamIds, s.streamInits, s.tasks, t, k.pc.h, k.pc.actor);
      DroppingKeepsCache(s.handles, s.actors, k.pc.actor);
    } else {
      MoveKeepsActors(s.actors, s.handles, s.streamIds, s.streamInits, s.tasks, t, Failed,
                      StreamInitsAfter(s.streamInits, t, k.pc, Failed));
    }
  }

  lemma CancelKeepsTasks(s: State, t: nat)
    requires Inv(s) && t in s.tasks
    ensures TasksOk(DropEffect(WorldOf(s), s.tasks[t].pc), Moved(s.tasks, t, Failed))
  {
    var w, k := WorldOf(s), s.tasks[t];
    assert TaskOk(w, k);
    forall u | u in s.tasks && u != t ensures TaskOk(DropEffect(w, k.pc), s.tasks[u]) {
      LocksKeepApart(s, t, u);
      if k.pc.StreamInsert? {
        DroppingKeepsOther(w, k, s.tasks[u]);
      }
    }
  }

  lemma CancelKeepsInv(s: State, t: nat)
    requires Inv(s) && t in s.tasks
    ensures Inv(Next(s, Cancel(t)))
  {
    var s' := Next(s, Cancel(t));
    assert LocksOk(s'.basinInit, s'.streamInits, s'.tasks) by {
      MoveKeepsLocks(s.basinInit, s.streamInits, s.tasks, t, Failed);
    }
    assert TasksOk(WorldOf(s'), s'.tasks) by { CancelKeepsTasks(s, t); }
    assert ActorsOk(s'.actors, s'.handles, s'.streamIds, s'.streamInits, s'.tasks) && CacheOk(s'.handles, s'.actors) by {
      CancelKeepsActors(s, t);
    }
  }

  // Appends, arrivals and restarts

  lemma SameKeySameSlot(w: World, k: Task, actor: StreamActor, h: nat)
    requires IdsOk(w.basinIds, w.streamIds, w.disks)
    requires k.pc.StreamInit? || k.pc.StreamBlock?
    requires h in w.handles && Bound(w, w.handles[h].basinId, k.stream, k.pc.streamId)
    requires Bound(w, actor.key.basinId, actor.name, actor.key.streamId)
    requires actor.key == StreamKey(w.handles[h].basinId, k.pc.streamId)
    ensures actor.name == k.stream
  {
  }

  /** A stream that has a running actor is not being opened or initialised. */
  lemma ActorExcludesInit(s: State, a: nat, t: nat)
    requires Inv(s) && a in s.actors && t in s.tasks && (s.tasks[t].pc.StreamInit? || s.tasks[t].pc.StreamBlock?)
    ensures s.tasks[t].pc.h in s.handles
    ensures s.actors[a].key != StreamKey(s.handles[s.tasks[t].pc.h].basinId, s.tasks[t].pc.streamId)
  {
    var k, actor := s.tasks[t], s.actors[a];
    assert TaskOk(WorldOf(s), k);
    assert ActorOk(actor, a, s.handles, s.streamIds, s.streamInits, s.tasks);
    if actor.key == StreamKey(s.handles[k.pc.h].basinId, k.pc.streamId) {
      HandlesHaveOwnIds(s.basins, s.handles, s.basinIds, s.streamIds, s.disks, k.pc.h, actor.h);
      SameKeySameSlot(WorldOf(s), k, actor, k.pc.h);
      assert false;
    }
  }

  lemma NewCursorKeepsActors(actors: map<nat, StreamActor>, handles: map<nat, BasinHandle>,
                             streamIds: map<(u128, Name), u128>, streamInits: map<nat, nat>, tasks: map<nat, Task>,
                             a: nat, cursor: Cursor)
    requires ActorsOk(actors, handles, streamIds, streamInits, tasks) && CacheOk(handles, actors) && a in actors
    ensures ActorsOk(actors[a := actors[a].(cursor := cursor)], handles, streamIds, streamInits, tasks)
    ensures CacheOk(handles, actors[a := actors[a].(cursor := cursor)])
  {
    var actors' := actors[a := actors[a].(cursor := cursor)];
    forall b | b in actors' ensures ActorOk(actors'[b], b, handles, streamIds, streamInits, tasks) {
      assert ActorOk(actors[b], b, handles, streamIds, streamInits, tasks);
    }
  }

  lemma AppendKeepsTask(w: World, k: Task, a: nat, cursor: Cursor, disk: Disk)
    requires TaskOk(w, k) && a in w.actors
    requires k.pc.StreamInit? ==> k.pc.h in w.handles && w.actors[a].key != StreamKey(w.handles[k.pc.h].basinId, k.pc.streamId)
    ensures TaskOk(w.(disks := w.disks[w.actors[a].key := disk], actors := w.actors[a := w.actors[a].(cursor := cursor)]), k)
  {
  }

  lemma AppendKeepsInv(s: State, a: nat, cursor: Cursor, disk: Disk)
    requires Inv(s) && a in s.actors && s.actors[a].key in s.disks
    ensures Inv(s.(disks := s.disks[s.actors[a].key := disk], actors := s.actors[a := s.actors[a].(cursor := cursor)]))
  {
    var s' := s.(disks := s.disks[s.actors[a].key := disk], actors := s.actors[a := s.actors[a].(cursor := cursor)]);
    NewCursorKeepsActors(s.actors, s.handles, s.streamIds, s.streamInits, s.tasks, a, cursor);
    ChangedDiskKeepsIds(s.basinIds, s.streamIds, s.disks, s.actors[a].key, disk);
    forall u | u in s.tasks ensures TaskOk(WorldOf(s'), s.tasks[u]) {
      if s.tasks[u].pc.StreamInit? {
        ActorExcludesInit(s, a, u);
      }
      AppendKeepsTask(WorldOf(s), s.tasks[u], a, cursor, disk);
    }
  }

  lemma ArrivalKeepsLocks(basinInit: Option<nat>, streamInits: map<nat, nat>, tasks: map<nat, Task>, t: nat, k: Task)
    requires LocksOk(basinInit, streamInits, tasks) && t !in tasks && k.pc.Start?
    ensures LocksOk(basinInit, streamInits, tasks[t := k])
  {
  }

  lemma ArrivalKeepsActors(actors: map<nat, StreamActor>, handles: map<nat, BasinHandle>, streamIds: map<(u128, Name), u128>,
                           streamInits: map<nat, nat>, tasks: map<nat, Task>, t: nat, k: Task)
    requires ActorsOk(actors, handles, streamIds, streamInits, tasks) && t !in tasks
    ensures ActorsOk(actors, handles, streamIds, streamInits, tasks[t := k])
  {
    forall a | a in actors ensures ActorOk(actors[a], a, handles, streamIds, streamInits, tasks[t := k]) {
      assert ActorOk(actors[a], a, handles, streamIds, streamInits, tasks);
    }
  }

  lemma ArriveKeepsInv(s: State, t: nat, k: Task)
    requires Inv(s) && t !in s.tasks && k.pc.Start?
    ensures Inv(s.(tasks := s.tasks[t := k]))
  {
    assert LocksOk(s.basinInit, s.streamInits, s.tasks[t := k]) by {
      ArrivalKeepsLocks(s.basinInit, s.streamInits, s.tasks, t, k);
    }
    assert ActorsOk(s.actors, s.handles, s.streamIds, s.streamInits, s.tasks[t := k]) by {
      ArrivalKeepsActors(s.actors, s.handles, s.streamIds, s.streamInits, s.tasks, t, k);
    }
    assert TasksOk(WorldOf(s), s.tasks[t := k]);
  }

  lemma StepKeepsInv(s: State, e: Event)
    requires Inv(s) && Enabled(s, e)
    ensures Inv(Next(s, e))
  {
    match e
    case Arrive(t, basin, stream, create) => ArriveKeepsInv(s, t, Task(basin, stream, create, Start));
    case Advance(t, io) => AdvanceKeepsInv(s, t, io);
    case Cancel(t) => CancelKeepsInv(s, t);
    case ActorAppend(a, data, ok) =>
      var log := L.Next(LogOf(s, a), L.Append(data, ok));
      AppendKeepsInv(s, a, log.live.value, Disk(log.block, log.stored));
    case Restart =>
  }

  lemma {:induction false} RunKeepsInv(s: State, es: seq<Event>)
    requires Inv(s) && Runnable(s, es)
    ensures Inv(Run(s, es))
    decreases |es|
  {
    if es != [] {
      StepKeepsInv(s, es[0]);
      RunKeepsInv(Next(s, es[0]), es[1..]);
    }
  }
}
