/** What the caches guarantee, and what that means for the streams behind them. */
module ControllerSafety {
  import opened Common
  import opened Names
  import opened Sequence
  import opened Controller
  import L = LogMachine

  lemma EmptyInv()
    ensures Inv(EMPTY)
  {
  }

  // One actor per stream

  /** The basin and stream name an actor serves. */
  function Serves(s: State, a: nat): (Name, Name)
    requires a in s.actors && s.actors[a].h in s.handles
  {
    (s.handles[s.actors[a].h].name, s.actors[a].name)
  }

  lemma SameSlotSameActor(actors: map<nat, StreamActor>, handles: map<nat, BasinHandle>,
                          streamIds: map<(u128, Name), u128>, streamInits: map<nat, nat>, tasks: map<nat, Task>,
                          a: nat, b: nat)
    requires ActorsOk(actors, handles, streamIds, streamInits, tasks)
    requires a in actors && b in actors && actors[a].h == actors[b].h && actors[a].name == actors[b].name
    ensures a == b
  {
    assert ActorOk(actors[a], a, handles, streamIds, streamInits, tasks);
    assert ActorOk(actors[b], b, handles, streamIds, streamInits, tasks);
  }

  lemma ActorsAreUnique(s: State, a: nat, b: nat)
    requires Inv(s) && a in s.actors && b in s.actors
    ensures s.actors[a].h in s.handles && s.actors[b].h in s.handles
    ensures Serves(s, a) == Serves(s, b) ==> a == b
    ensures s.actors[a].key == s.actors[b].key ==> a == b
  {
    assert ActorOk(s.actors[a], a, s.handles, s.streamIds, s.streamInits, s.tasks);
    assert ActorOk(s.actors[b], b, s.handles, s.streamIds, s.streamInits, s.tasks);
    var h, g := s.actors[a].h, s.actors[b].h;
    if s.actors[a].key == s.actors[b].key {
      HandlesHaveOwnIds(s.basins, s.handles, s.basinIds, s.streamIds, s.disks, h, g);
      SameSlotSameActor(s.actors, s.handles, s.streamIds, s.streamInits, s.tasks, a, b);
    }
    if Serves(s, a) == Serves(s, b) {
      assert HandleOk(s.basins, s.basinIds, s.handles[h], h) && HandleOk(s.basins, s.basinIds, s.handles[g], g);
      SameSlotSameActor(s.actors, s.handles, s.streamIds, s.streamInits, s.tasks, a, b);
    }
  }

  /** At any moment of any run, with any number of callers, drops and restarts, no two running actors serve the same
      basin and stream name, and no two own the same stored stream. */
  lemma AtMostOneActor(es: seq<Event>, a: nat, b: nat)
    requires Runnable(EMPTY, es) && a in Run(EMPTY, es).actors && b in Run(EMPTY, es).actors
    ensures var s := Run(EMPTY, es);
            && s.actors[a].h in s.handles && s.actors[b].h in s.handles
            && (Serves(s, a) == Serves(s, b) || s.actors[a].key == s.actors[b].key ==> a == b)
  {
    EmptyInv();
    RunKeepsInv(EMPTY, es);
    ActorsAreUnique(Run(EMPTY, es), a, b);
  }

  lemma ServedOnBoundStream(s: State, t: nat)
    requires Inv(s) && t in s.tasks && s.tasks[t].pc.Done?
    ensures var k := s.tasks[t];
            && k.pc.actor in s.actors && s.actors[k.pc.actor].h in s.handles
            && Serves(s, k.pc.actor) == (k.basin, k.stream)
            && k.basin in s.basinIds && (s.basinIds[k.basin], k.stream) in s.streamIds
            && s.actors[k.pc.actor].key == StreamKey(s.basinIds[k.basin], s.streamIds[(s.basinIds[k.basin], k.stream)])
  {
    var k := s.tasks[t];
    assert TaskOk(WorldOf(s), k);
    assert ActorOk(s.actors[k.pc.actor], k.pc.actor, s.handles, s.streamIds, s.streamInits, s.tasks);
    assert HandleOk(s.basins, s.basinIds, s.handles[k.pc.h], k.pc.h);
  }

  lemma ServedAlike(w: World, k: Task, other: Task)
    requires TaskOk(w, k) && TaskOk(w, other) && k.pc.Done? && other.pc.Done?
    requires k.basin == other.basin && k.stream == other.stream
    ensures k.pc == other.pc
  {
  }

  /** Callers that were served for the same names hold the same handle, and it leads to a running actor for these names
      that works on the identifiers bound on disk. */
  lemma SameNamesSameHandle(es: seq<Event>, t: nat, u: nat)
    requires Runnable(EMPTY, es)
    requires t in Run(EMPTY, es).tasks && Run(EMPTY, es).tasks[t].pc.Done?
    ensures var s := Run(EMPTY, es);
            var k := s.tasks[t];
            && k.pc.actor in s.actors && s.actors[k.pc.actor].h in s.handles
            && Serves(s, k.pc.actor) == (k.basin, k.stream)
            && k.basin in s.basinIds && (s.basinIds[k.basin], k.stream) in s.streamIds
            && s.actors[k.pc.actor].key == StreamKey(s.basinIds[k.basin], s.streamIds[(s.basinIds[k.basin], k.stream)])
            && (u in s.tasks && s.tasks[u].pc.Done? && s.tasks[u].basin == k.basin && s.tasks[u].stream == k.stream ==>
                  s.tasks[u].pc == k.pc)
  {
    var s := Run(EMPTY, es);
    EmptyInv();
    RunKeepsInv(EMPTY, es);
    ServedOnBoundStream(s, t);
    var k := s.tasks[t];
    if u in s.tasks && s.tasks[u].pc.Done? && s.tasks[u].basin == k.basin && s.tasks[u].stream == k.stream {
      ServedAlike(WorldOf(s), k, s.tasks[u]);
    }
  }

  // Nothing bound or cached is ever replaced

  ghost predicate Extends<K, V>(m: map<K, V>, m': map<K, V>) {
    forall x | x in m :: x in m' && m'[x] == m[x]
  }

  lemma AddingExtends<K, V>(m: map<K, V>, k: K, v: V)
    requires k !in m
    ensures Extends(m, m[k := v])
  {
  }

  lemma EffectGrowsBindings(w: World, k: Task, io: Io)
    requires Feasible(w, k, io) && TaskOk(w, k)
    ensures Extends(w.basinIds, Effect(w, k, io).basinIds) && Extends(w.streamIds, Effect(w, k, io).streamIds)
  {
    if k.pc.BasinCreate? {
      AddingExtends(w.basinIds, k.basin, io.id);
    } else if k.pc.StreamCreate? {
      AddingExtends(w.streamIds, (w.handles[k.pc.h].basinId, k.stream), io.id);
    }
  }

  lemma EffectGrowsCaches(w: World, k: Task, io: Io, h: nat)
    requires Feasible(w, k, io) && TaskOk(w, k) && h in w.handles
    ensures var w' := Effect(w, k, io);
            && Extends(w.basins, w'.basins)
            && h in w'.handles && w'.handles[h].basinId == w.handles[h].basinId
            && Extends(w.handles[h].streams, w'.handles[h].streams)
  {
    if k.pc.BasinInsert? {
      AddingExtends(w.basins, k.basin, io.address);
    } else if k.pc.StreamInsert? {
      AddingExtends(w.handles[k.pc.h].streams, k.stream, k.pc.actor);
    }
  }

  lemma StepGrows(s: State, e: Event)
    requires TasksOk(WorldOf(s), s.tasks) && Enabled(s, e)
    ensures Extends(s.basinIds, Next(s, e).basinIds) && Extends(s.streamIds, Next(s, e).streamIds)
  {
    if e.Advance? {
      EffectGrowsBindings(WorldOf(s), s.tasks[e.t], e.io);
    }
  }

  /** Once a basin name or a stream name is bound to an identifier it stays bound to it, across failed and dropped
      creations, concurrent callers and restarts. */
  lemma {:induction false} BindingsAreWriteOnce(s: State, es: seq<Event>)
    requires Inv(s) && Runnable(s, es)
    ensures Extends(s.basinIds, Run(s, es).basinIds) && Extends(s.streamIds, Run(s, es).streamIds)
    decreases |es|
  {
    if es != [] {
      StepGrows(s, es[0]);
      StepKeepsInv(s, es[0]);
      BindingsAreWriteOnce(Next(s, es[0]), es[1..]);
    }
  }

  predicate BasinCachedAs(s: State, name: Name, h: nat) {
    name in s.basins && s.basins[name] == h && h in s.handles
  }

  predicate StreamCachedAs(s: State, h: nat, stream: Name, a: nat) {
    h in s.handles && stream in s.handles[h].streams && s.handles[h].streams[stream] == a
  }

  lemma EntryStays(s: State, e: Event, name: Name, h: nat, stream: Name, a: nat)
    requires TasksOk(WorldOf(s), s.tasks) && Enabled(s, e) && !e.Restart? && BasinCachedAs(s, name, h)
    ensures BasinCachedAs(Next(s, e), name, h)
    ensures StreamCachedAs(s, h, stream, a) ==> StreamCachedAs(Next(s, e), h, stream, a)
  {
    if e.Advance? {
      EffectGrowsCaches(WorldOf(s), s.tasks[e.t], e.io, h);
    }
  }

  predicate StaysUp(es: seq<Event>) {
    es == [] || (!es[0].Restart? && StaysUp(es[1..]))
  }

  /** While the process lives, a cached basin handle stays cached, and so does every stream handle cached in it. */
  lemma {:induction false} CacheEntriesAreNeverReplaced(s: State, es: seq<Event>, name: Name, h: nat, stream: Name, a: nat)
    requires Inv(s) && Runnable(s, es) && StaysUp(es) && BasinCachedAs(s, name, h)
    ensures BasinCachedAs(Run(s, es), name, h)
    ensures StreamCachedAs(s, h, stream, a) ==> StreamCachedAs(Run(s, es), h, stream, a)
    decreases |es|
  {
    if es != [] {
      EntryStays(s, es[0], name, h, stream, a);
      StepKeepsInv(s, es[0]);
      CacheEntriesAreNeverReplaced(Next(s, es[0]), es[1..], name, h, stream, a);
    }
  }

  // Every stream behind the caches is a crash-safety machine

  ghost predicate Runs(actors: map<nat, StreamActor>, key: StreamKey, a: nat) {
    a in actors && actors[a].key == key
  }

  ghost function OwnerOf(actors: map<nat, StreamActor>, key: StreamKey): (a: nat)
    requires exists a :: Runs(actors, key, a)
    ensures Runs(actors, key, a)
  {
    var a :| Runs(actors, key, a);
    a
  }

  ghost function LiveOf(actors: map<nat, StreamActor>, key: StreamKey): Option<Cursor> {
    if exists a :: Runs(actors, key, a) then Some(actors[OwnerOf(actors, key)].cursor) else None
  }

  ghost function Project(s: State, key: StreamKey): L.Log {
    if key in s.disks then L.Log(true, s.disks[key].block, s.disks[key].stored, LiveOf(s.actors, key)) else L.NEW
  }

  /** What a step of the whole system is for one stored stream. */
  function Projected(s: State, e: Event, key: StreamKey): Option<L.Event>
    requires Enabled(s, e)
  {
    match e
    case Advance(t, io) =>
      var pc := s.tasks[t].pc;
      if !io.ok then None
      else if pc.StreamCreate? && key == StreamKey(s.handles[pc.h].basinId, io.id) then Some(L.CreateMeta)
      else if pc.StreamInit? && key == StreamKey(s.handles[pc.h].basinId, pc.streamId) then Some(L.CreateBlock)
      else if pc.StreamBlock? && key == StreamKey(s.handles[pc.h].basinId, pc.streamId) then Some(L.Load)
      else None
    case ActorAppend(a, data, ok) => if s.actors[a].key == key then Some(L.Append(data, ok)) else None
    case Cancel(t) =>
      var pc := s.tasks[t].pc;
      if pc.StreamInsert? && pc.actor in s.actors && s.actors[pc.actor].key == key then Some(L.Crash) else None
    case Restart => Some(L.Crash)
    case Arrive(_, _, _, _) => None
  }

  ghost predicate Follows(before: L.Log, step: Option<L.Event>, after: L.Log) {
    match step
    case None => after == before
    case Some(e) => L.Enabled(before, e) && after == L.Next(before, e)
  }

  lemma LiveIs(s: State, a: nat)
    requires Inv(s) && a in s.actors
    ensures LiveOf(s.actors, s.actors[a].key) == Some(s.actors[a].cursor)
  {
    var key := s.actors[a].key;
    assert Runs(s.actors, key, a);
    ActorsAreUnique(s, a, OwnerOf(s.actors, key));
  }

  /** Starting, changing or dropping an actor of another stream does not matter. */
  lemma SameLive(actors: map<nat, StreamActor>, actors': map<nat, StreamActor>, key: StreamKey, a: nat)
    requires forall b | b != a && b in actors :: b in actors' && actors[b] == actors'[b]
    requires forall b | b != a && b in actors' :: b in actors
    requires !Runs(actors, key, a) && !Runs(actors', key, a)
    requires forall b, c | Runs(actors, key, b) && Runs(actors, key, c) :: b == c
    ensures LiveOf(actors, key) == LiveOf(actors', key)
  {
    if exists b :: Runs(actors, key, b) {
      assert Runs(actors', key, OwnerOf(actors, key));
      assert Runs(actors, key, OwnerOf(actors', key));
    } else if exists b :: Runs(actors', key, b) {
      assert Runs(actors, key, OwnerOf(actors', key));
    }
  }

  lemma OwnersAreUnique(s: State, key: StreamKey)
    requires Inv(s)
    ensures forall b, c | Runs(s.actors, key, b) && Runs(s.actors, key, c) :: b == c
  {
    forall b, c | Runs(s.actors, key, b) && Runs(s.actors, key, c) ensures b == c {
      ActorsAreUnique(s, b, c);
    }
  }

  /** While a caller opens or initialises a stream, nobody else owns it: this is what `Load` and `CreateBlock` of the
      machine rely on. */
  lemma NoOwnerWhileOpening(s: State, t: nat)
    requires Inv(s) && t in s.tasks && (s.tasks[t].pc.StreamBlock? || s.tasks[t].pc.StreamInit?)
    ensures s.tasks[t].pc.h in s.handles
    ensures LiveOf(s.actors, StreamKey(s.handles[s.tasks[t].pc.h].basinId, s.tasks[t].pc.streamId)) == None
  {
    assert TaskOk(WorldOf(s), s.tasks[t]);
    var key := StreamKey(s.handles[s.tasks[t].pc.h].basinId, s.tasks[t].pc.streamId);
    if exists a :: Runs(s.actors, key, a) {
      ActorExcludesInit(s, OwnerOf(s.actors, key), t);
    }
  }

  lemma AppendProjects(s: State, e: Event, key: StreamKey)
    requires Enabled(s, e) && e.ActorAppend?
    requires forall b, c | Runs(s.actors, key, b) && Runs(s.actors, key, c) :: b == c
    requires LiveOf(s.actors, s.actors[e.actor].key) == Some(s.actors[e.actor].cursor)
    ensures Follows(Project(s, key), Projected(s, e, key), Project(Next(s, e), key))
  {
    var s' := Next(s, e);
    if s.actors[e.actor].key == key {
      assert Runs(s.actors, key, e.actor);
      OwnerAfter(s.actors, s'.actors, key, e.actor);
    } else {
      SameLive(s.actors, s'.actors, key, e.actor);
    }
  }

  /** If `a` owns the stream afterwards and nobody else did before, `a` is the owner. */
  lemma OwnerAfter(actors: map<nat, StreamActor>, actors': map<nat, StreamActor>, key: StreamKey, a: nat)
    requires a in actors' && actors'[a].key == key
    requires forall b | b != a && b in actors' :: b in actors && actors[b] == actors'[b]
    requires forall b | Runs(actors, key, b) :: b == a
    ensures LiveOf(actors', key) == Some(actors'[a].cursor)
  {
    assert Runs(actors', key, a);
    var b := OwnerOf(actors', key);
    if b != a {
      assert Runs(actors, key, b);
    }
  }

  /** A stream gets an owner: `actors` has none, and `a` is started for it. */
  lemma OwnerStarts(actors: map<nat, StreamActor>, key: StreamKey, a: nat, actor: StreamActor)
    requires LiveOf(actors, key) == None && actor.key == key
    ensures LiveOf(actors[a := actor], key) == Some(actor.cursor)
  {
    assert forall b :: !Runs(actors, key, b);
    OwnerAfter(actors, actors[a := actor], key, a);
  }

  lemma OpeningEffect(s: State, t: nat, io: Io)
    requires t in s.tasks && MayAdvance(s, s.tasks[t], io) && io.ok
    requires s.tasks[t].pc.StreamBlock? || s.tasks[t].pc.StreamInit?
    ensures var k, s' := s.tasks[t], Next(s, Advance(t, io));
            var key := StreamKey(s.handles[k.pc.h].basinId, k.pc.streamId);
            var cursor := if k.pc.StreamInit? then DEFAULT_CURSOR else L.Reloaded(s.disks[key].block);
            && s'.actors == s.actors[io.address := StreamActor(k.pc.h, k.stream, key, cursor)]
            && s'.disks == if k.pc.StreamInit? then s.disks[key := s.disks[key].(block := Some(DEFAULT_CURSOR.block))] else s.disks
  {
  }

  lemma OpeningProjects(s: State, t: nat, io: Io, key: StreamKey)
    requires t in s.tasks && MayAdvance(s, s.tasks[t], io) && io.ok
    requires s.tasks[t].pc.StreamBlock? || s.tasks[t].pc.StreamInit?
    requires forall b, c | Runs(s.actors, key, b) && Runs(s.actors, key, c) :: b == c
    requires key == StreamKey(s.handles[s.tasks[t].pc.h].basinId, s.tasks[t].pc.streamId) ==>
               LiveOf(s.actors, key) == None && (s.tasks[t].pc.StreamInit? ==> s.disks[key] == Disk(None, map[]))
    ensures Follows(Project(s, key), Projected(s, Advance(t, io), key), Project(Next(s, Advance(t, io)), key))
  {
    var s' := Next(s, Advance(t, io));
    var pc := s.tasks[t].pc;
    OpeningEffect(s, t, io);
    if key == StreamKey(s.handles[pc.h].basinId, pc.streamId) {
      OwnerStarts(s.actors, key, io.address, s'.actors[io.address]);
    } else {
      SameLive(s.actors, s'.actors, key, io.address);
    }
  }

  lemma ActorsWorkOnBoundStreams(s: State, a: nat)
    requires Inv(s) && a in s.actors
    ensures s.actors[a].key.streamId in s.streamIds.Values
  {
    var actor := s.actors[a];
    assert ActorOk(actor, a, s.handles, s.streamIds, s.streamInits, s.tasks);
    assert s.streamIds[(actor.key.basinId, actor.name)] == actor.key.streamId;
  }

  lemma CreationProjects(s: State, t: nat, io: Io, key: StreamKey)
    requires t in s.tasks && MayAdvance(s, s.tasks[t], io) && io.ok && s.tasks[t].pc.StreamCreate?
    requires key.streamId == io.id ==> key !in s.disks && LiveOf(s.actors, key) == None
    ensures Follows(Project(s, key), Projected(s, Advance(t, io), key), Project(Next(s, Advance(t, io)), key))
  {
  }

  /** A newly drawn stream identifier has neither a disk nor an owner. */
  lemma NewStreamIsNew(s: State, key: StreamKey)
    requires Inv(s) && key.streamId !in s.streamIds.Values
    ensures key !in s.disks && LiveOf(s.actors, key) == None
  {
    forall a | a in s.actors ensures s.actors[a].key != key {
      ActorsWorkOnBoundStreams(s, a);
    }
  }

  lemma OwnerStops(actors: map<nat, StreamActor>, key: StreamKey, a: nat)
    requires forall b, c | Runs(actors, key, b) && Runs(actors, key, c) :: b == c
    requires a in actors
    ensures LiveOf(actors - {a}, key) == if actors[a].key == key then None else LiveOf(actors, key)
  {
    if actors[a].key == key {
      assert Runs(actors, key, a);
      assert forall b :: Runs(actors - {a}, key, b) ==> Runs(actors, key, b);
    } else {
      SameLive(actors, actors - {a}, key, a);
    }
  }

  lemma DropProjects(s: State, t: nat, key: StreamKey)
    requires Enabled(s, Cancel(t)) && (s.tasks[t].pc.StreamInsert? ==> s.tasks[t].pc.actor in s.actors)
    requires forall b, c | Runs(s.actors, key, b) && Runs(s.actors, key, c) :: b == c
    ensures Follows(Project(s, key), Projected(s, Cancel(t), key), Project(Next(s, Cancel(t)), key))
  {
    if s.tasks[t].pc.StreamInsert? {
      OwnerStops(s.actors, key, s.tasks[t].pc.actor);
    }
  }

  lemma OtherAdvanceProjects(s: State, t: nat, io: Io, key: StreamKey)
    requires t in s.tasks && MayAdvance(s, s.tasks[t], io)
    requires !(io.ok && (s.tasks[t].pc.StreamBlock? || s.tasks[t].pc.StreamInit? || s.tasks[t].pc.StreamCreate?))
    ensures Project(Next(s, Advance(t, io)), key) == Project(s, key) && Projected(s, Advance(t, io), key) == None
  {
  }

  lemma RestartProjects(s: State, key: StreamKey)
    ensures Follows(Project(s, key), Some(L.Crash), Project(Next(s, Restart), key))
  {
    assert forall a :: !Runs(map[], key, a);
  }

  lemma AdvanceProjects(s: State, t: nat, io: Io, key: StreamKey)
    requires Inv(s) && t in s.tasks && MayAdvance(s, s.tasks[t], io)
    ensures Follows(Project(s, key), Projected(s, Advance(t, io), key), Project(Next(s, Advance(t, io)), key))
  {
    var pc := s.tasks[t].pc;
    if io.ok && (pc.StreamBlock? || pc.StreamInit?) {
      assert TaskOk(WorldOf(s), s.tasks[t]);
      OwnersAreUnique(s, key);
      NoOwnerWhileOpening(s, t);
      OpeningProjects(s, t, io, key);
    } else if io.ok && pc.StreamCreate? {
      if key.streamId == io.id {
        NewStreamIsNew(s, key);
      }
      CreationProjects(s, t, io, key);
    } else {
      OtherAdvanceProjects(s, t, io, key);
    }
  }

  /** Every step of the system is, for each stored stream, one step of its machine or none. */
  lemma StepProjects(s: State, e: Event, key: StreamKey)
    requires Inv(s) && Enabled(s, e)
    ensures Follows(Project(s, key), Projected(s, e, key), Project(Next(s, e), key))
  {
    match e
    case Arrive(_, _, _, _) =>
    case Advance(t, io) =>
      AdvanceProjects(s, t, io, key);
    case ActorAppend(a, _, _) =>
      OwnersAreUnique(s, key);
      LiveIs(s, a);
      AppendProjects(s, e, key);
    case Cancel(t) =>
      assert TaskOk(WorldOf(s), s.tasks[t]);
      OwnersAreUnique(s, key);
      DropProjects(s, t, key);
    case Restart => RestartProjects(s, key);
  }

  // Whole runs

  /** The events of one stored stream in a run of the whole system. */
  function History(s: State, es: seq<Event>, key: StreamKey): seq<L.Event>
    requires Runnable(s, es)
    decreases |es|
  {
    if es == [] then []
    else (match Projected(s, es[0], key) case Some(e) => [e] case None => []) + History(Next(s, es[0]), es[1..], key)
  }

  /** What the actors of one stored stream acknowledge in a run of the whole system. */
  function Acknowledgements(s: State, es: seq<Event>, key: StreamKey): seq<L.Ack>
    requires Runnable(s, es)
    decreases |es|
  {
    if es == [] then []
    else
      var rest := Acknowledgements(Next(s, es[0]), es[1..], key);
      match es[0]
      case ActorAppend(a, data, ok) =>
        if ok && s.actors[a].key == key then [L.Ack(s.actors[a].cursor.next, data)] + rest else rest
      case _ => rest
  }

  /** A run of the whole system is, for each stored stream, a run of its machine, with the same acknowledgements. */
  lemma {:induction false} RunProjects(s: State, es: seq<Event>, key: StreamKey)
    requires Inv(s) && Runnable(s, es)
    ensures L.Runnable(Project(s, key), History(s, es, key))
    ensures Project(Run(s, es), key) == L.Run(Project(s, key), History(s, es, key))
    ensures Acknowledgements(s, es, key) == L.Acks(Project(s, key), History(s, es, key))
    decreases |es|
  {
    if es != [] {
      var e, s' := es[0], Next(s, es[0]);
      StepProjects(s, e, key);
      StepKeepsInv(s, e);
      RunProjects(s', es[1..], key);
      AcksProject(s, e, key);
      var rest := History(s', es[1..], key);
      if Projected(s, e, key).Some? {
        assert History(s, es, key) == [Projected(s, e, key).value] + rest;
        L.Prepended(Project(s, key), Projected(s, e, key).value, rest);
      } else {
        assert History(s, es, key) == rest;
      }
    }
  }

  lemma AcksProject(s: State, e: Event, key: StreamKey)
    requires Inv(s) && Enabled(s, e)
    ensures e.ActorAppend? && s.actors[e.actor].key == key ==>
              Projected(s, e, key).Some? && Project(s, key).live == Some(s.actors[e.actor].cursor)
    ensures e.ActorAppend? && s.actors[e.actor].key != key ==> Projected(s, e, key) == None
    ensures !e.ActorAppend? && Projected(s, e, key).Some? ==> !L.Acknowledged(Projected(s, e, key).value)
  {
    if e.ActorAppend? {
      LiveIs(s, e.actor);
    }
  }

  /** The stream's own history stays within 2^64 numbers and is disciplined: its creation is completed before it is
      reloaded, and it is reloaded after a failed write that carried a block before it is appended to again. */
  predicate OrderlyHistory(es: seq<Event>, key: StreamKey)
    requires Runnable(EMPTY, es)
  {
    var history := History(EMPTY, es, key);
    L.WithinBudget(0, history) && (L.Runnable(L.NEW, history) ==> L.Disciplined(L.NEW, history, false))
  }

  /** End to end, from empty stores: whatever callers arrive, race and are dropped, whatever writes fail and however often
      the process restarts, a stream with an orderly history loses nothing it has acknowledged. Its records on disk are
      exactly the acknowledged ones, and they were acknowledged under increasing numbers. */
  lemma AcknowledgedRecordsSurvive(es: seq<Event>, key: StreamKey)
    requires Runnable(EMPTY, es) && OrderlyHistory(es, key)
    ensures L.Increasing(Acknowledgements(EMPTY, es, key))
    ensures var disks := Run(EMPTY, es).disks;
            forall a :: a in Acknowledgements(EMPTY, es, key) <==> key in disks && L.Holds(disks[key].stored, a)
  {
    EmptyInv();
    assert Project(EMPTY, key) == L.NEW;
    RunProjects(EMPTY, es, key);
    L.DisciplinedRunsAreSafe(History(EMPTY, es, key));
  }

  // A condition on the system's own steps that makes every history orderly

  /** No append fails, and nobody fails, is dropped or dies between the two writes of a stream's creation. Every other
      storage access may fail, every other caller may be dropped, and restarts are free otherwise. */
  predicate Clean(s: State, e: Event)
    requires Enabled(s, e)
  {
    match e
    case ActorAppend(_, _, ok) => ok
    case Advance(t, io) => s.tasks[t].pc.StreamInit? ==> io.ok
    case Cancel(t) => !s.tasks[t].pc.StreamInit?
    case Restart => forall t | t in s.tasks :: !s.tasks[t].pc.StreamInit?
    case Arrive(_, _, _, _) => true
  }

  predicate CleanRun(s: State, es: seq<Event>)
    requires Runnable(s, es)
    decreases |es|
  {
    es != [] ==> Clean(s, es[0]) && CleanRun(Next(s, es[0]), es[1..])
  }

  ghost predicate Initialises(s: State, t: nat, key: StreamKey) {
    && t in s.tasks && s.tasks[t].pc.StreamInit? && s.tasks[t].pc.h in s.handles
    && key == StreamKey(s.handles[s.tasks[t].pc.h].basinId, s.tasks[t].pc.streamId)
  }

  /** A stream without a block is in the hands of its creator. */
  ghost predicate BlockOrCreator(s: State, key: StreamKey) {
    key in s.disks && s.disks[key].block.None? ==> exists t :: Initialises(s, t, key)
  }

  lemma OpeningKeepsBlockOrCreator(s: State, t: nat, io: Io, key: StreamKey)
    requires t in s.tasks && MayAdvance(s, s.tasks[t], io) && io.ok && BlockOrCreator(s, key)
    requires s.tasks[t].pc.StreamCreate? || s.tasks[t].pc.StreamInit?
    ensures BlockOrCreator(Next(s, Advance(t, io)), key)
  {
    var s' := Next(s, Advance(t, io));
    if s.tasks[t].pc.StreamCreate? && key == StreamKey(s.handles[s.tasks[t].pc.h].basinId, io.id) {
      assert Initialises(s', t, key);
    } else if u :| Initialises(s, u, key) {
      assert u != t ==> Initialises(s', u, key);
    }
  }

  lemma BasinIdStays(s: State, e: Event, h: nat)
    requires TasksOk(WorldOf(s), s.tasks) && Enabled(s, e) && !e.Restart? && h in s.handles
    ensures h in Next(s, e).handles && Next(s, e).handles[h].basinId == s.handles[h].basinId
  {
    if e.Advance? {
      EffectGrowsCaches(WorldOf(s), s.tasks[e.t], e.io, h);
    }
  }

  /** The step either leaves the stream alone, or its actor appends, or it is opened. */
  lemma BlockStays(s: State, e: Event, key: StreamKey)
    requires Enabled(s, e) && key in Next(s, e).disks && Next(s, e).disks[key].block.None?
    requires !(e.Advance? && e.io.ok && (s.tasks[e.t].pc.StreamCreate? || s.tasks[e.t].pc.StreamInit?))
    ensures key in s.disks && s.disks[key].block.None?
  {
    if e.Advance? {
      OtherAdvanceKeepsDisks(WorldOf(s), s.tasks[e.t], e.io);
    }
  }

  lemma OtherAdvanceKeepsDisks(w: World, k: Task, io: Io)
    requires Feasible(w, k, io) && !(io.ok && (k.pc.StreamCreate? || k.pc.StreamInit?))
    ensures Effect(w, k, io).disks == w.disks
  {
  }

  lemma CleanStepKeepsBlockOrCreator(s: State, e: Event, key: StreamKey)
    requires TasksOk(WorldOf(s), s.tasks) && Enabled(s, e) && Clean(s, e) && BlockOrCreator(s, key)
    ensures BlockOrCreator(Next(s, e), key)
  {
    var s' := Next(s, e);
    if e.Advance? && e.io.ok && (s.tasks[e.t].pc.StreamCreate? || s.tasks[e.t].pc.StreamInit?) {
      OpeningKeepsBlockOrCreator(s, e.t, e.io, key);
    } else if key in s'.disks && s'.disks[key].block.None? {
      BlockStays(s, e, key);
      var t :| Initialises(s, t, key);
      assert !e.Restart?;
      BasinIdStays(s, e, s.tasks[t].pc.h);
      CreatorStays(s, e, t, key);
    }
  }

  lemma CreatorStays(s: State, e: Event, t: nat, key: StreamKey)
    requires Enabled(s, e) && Initialises(s, t, key) && Clean(s, e)
    requires !(e.Advance? && e.t == t)
    requires !e.Restart? ==> s.tasks[t].pc.h in Next(s, e).handles
    requires !e.Restart? ==> Next(s, e).handles[s.tasks[t].pc.h].basinId == s.handles[s.tasks[t].pc.h].basinId
    ensures Initialises(Next(s, e), t, key)
  {
    assert !e.Restart? && !(e.Cancel? && e.t == t);
    assert Next(s, e).tasks[t] == s.tasks[t];
  }

  lemma CleanEventDoesNotPoison(s: State, e: Event, key: StreamKey)
    requires Enabled(s, e) && Clean(s, e) && Projected(s, e, key).Some?
    requires L.Enabled(Project(s, key), Projected(s, e, key).value)
    ensures !L.Poison(Project(s, key), Projected(s, e, key).value, false)
  {
  }

  lemma LoadOpensStream(s: State, e: Event, key: StreamKey)
    requires Enabled(s, e) && Projected(s, e, key) == Some(L.Load)
    ensures e.Advance? && s.tasks[e.t].pc.StreamBlock? && s.tasks[e.t].pc.h in s.handles && key in s.disks
    ensures key == StreamKey(s.handles[s.tasks[e.t].pc.h].basinId, s.tasks[e.t].pc.streamId)
  {
  }

  lemma {:induction false} CleanHistoryIsDisciplined(s: State, es: seq<Event>, key: StreamKey)
    requires Inv(s) && BlockOrCreator(s, key) && Runnable(s, es) && CleanRun(s, es)
    ensures L.Runnable(Project(s, key), History(s, es, key))
    ensures L.Disciplined(Project(s, key), History(s, es, key), false)
    decreases |es|
  {
    if es != [] {
      var e, s' := es[0], Next(s, es[0]);
      var rest := History(s', es[1..], key);
      StepProjects(s, e, key);
      CleanStepKeepsBlockOrCreator(s, e, key);
      assert Inv(s') by { StepKeepsInv(s, e); }
      CleanHistoryIsDisciplined(s', es[1..], key);
      if Projected(s, e, key).Some? {
        CleanEventDoesNotPoison(s, e, key);
        if Projected(s, e, key).value.Load? {
          LoadOpensStream(s, e, key);
          LoadFindsBlock(s, e.t, key);
        }
        L.DisciplinePrepended(Project(s, key), Projected(s, e, key).value, rest);
        assert History(s, es, key) == [Projected(s, e, key).value] + rest;
      } else {
        assert History(s, es, key) == rest;
      }
    }
  }

  lemma LoadFindsBlock(s: State, t: nat, key: StreamKey)
    requires Inv(s) && BlockOrCreator(s, key) && t in s.tasks && s.tasks[t].pc.StreamBlock? && s.tasks[t].pc.h in s.handles
    requires key == StreamKey(s.handles[s.tasks[t].pc.h].basinId, s.tasks[t].pc.streamId) && key in s.disks
    ensures s.disks[key].block.Some?
  {
    if s.disks[key].block.None? {
      var u :| Initialises(s, u, key);
      LocksKeepApart(s, t, u);
    }
  }

  /** Clean runs lose nothing, for any number of callers, drops, failed loads and restarts. */
  lemma CleanRunsLoseNothing(es: seq<Event>, key: StreamKey)
    requires Runnable(EMPTY, es) && CleanRun(EMPTY, es) && L.WithinBudget(0, History(EMPTY, es, key))
    ensures L.Increasing(Acknowledgements(EMPTY, es, key))
    ensures var disks := Run(EMPTY, es).disks;
            forall a :: a in Acknowledgements(EMPTY, es, key) <==> key in disks && L.Holds(disks[key].stored, a)
  {
    EmptyInv();
    assert Project(EMPTY, key) == L.NEW;
    RunProjects(EMPTY, es, key);
    CleanHistoryIsDisciplined(EMPTY, es, key);
    AcknowledgedRecordsSurvive(es, key);
  }
}
