/** What callers get from the caches: names are bound on request only, callers never deadlock, and a caller that may
    create is served unless it meets a fault. */
module ControllerProgress {
  import opened Common
  import opened Names
  import opened Controller
  import CS = ControllerSafety

  // Names are bound only for callers that asked for it

  ghost predicate OnlyCreatorsCreate(tasks: map<nat, Task>) {
    forall t | t in tasks && (tasks[t].pc.BasinCreate? || tasks[t].pc.StreamCreate?) :: tasks[t].create
  }

  /** Nobody at work may create the stream. */
  ghost predicate Unasked(tasks: map<nat, Task>, basin: Name, stream: Name) {
    forall t | t in tasks && tasks[t].create :: tasks[t].basin != basin || tasks[t].stream != stream
  }

  ghost predicate BasinUnasked(tasks: map<nat, Task>, basin: Name) {
    forall t | t in tasks && tasks[t].create :: tasks[t].basin != basin
  }

  predicate AsksFor(e: Event, basin: Name, stream: Name) {
    e.Arrive? && e.create && e.basin == basin && e.stream == stream
  }

  predicate AsksForBasin(e: Event, basin: Name) {
    e.Arrive? && e.create && e.basin == basin
  }

  lemma StepKeepsRequests(s: State, e: Event)
    requires Enabled(s, e) && OnlyCreatorsCreate(s.tasks)
    ensures OnlyCreatorsCreate(Next(s, e).tasks)
  {
    if e.Advance? {
      CreatorsGoOnToCreate(WorldOf(s), s.tasks[e.t], e.io);
    }
  }

  lemma CreatorsGoOnToCreate(w: World, k: Task, io: Io)
    requires Feasible(w, k, io)
    ensures NextPc(w, k, io).BasinCreate? || NextPc(w, k, io).StreamCreate? ==> k.create
  {
  }

  lemma StepKeepsUnasked(s: State, e: Event, basin: Name, stream: Name)
    requires Enabled(s, e)
    ensures Unasked(s.tasks, basin, stream) && !AsksFor(e, basin, stream) ==> Unasked(Next(s, e).tasks, basin, stream)
    ensures BasinUnasked(s.tasks, basin) && !AsksForBasin(e, basin) ==> BasinUnasked(Next(s, e).tasks, basin)
  {
  }

  lemma BasinStepOnRequest(s: State, e: Event, basin: Name)
    requires Enabled(s, e) && OnlyCreatorsCreate(s.tasks) && BasinUnasked(s.tasks, basin)
    ensures basin in Next(s, e).basinIds <==> basin in s.basinIds
  {
    if e.Advance? {
      AdvanceOnRequest(WorldOf(s), s.tasks[e.t], e.io, basin);
    }
  }

  lemma AdvanceOnRequest(w: World, k: Task, io: Io, basin: Name)
    requires Feasible(w, k, io) && (k.pc.BasinCreate? ==> k.basin != basin)
    ensures basin in Effect(w, k, io).basinIds <==> basin in w.basinIds
  {
  }

  /** A caller inside a stream section works under the identifier of its own basin. */
  lemma CallersWorkInTheirBasin(s: State, t: nat)
    requires Inv(s) && t in s.tasks && HasHandle(s.tasks[t].pc)
    ensures s.tasks[t].pc.h in s.handles && s.tasks[t].basin in s.basinIds
    ensures s.handles[s.tasks[t].pc.h].basinId == s.basinIds[s.tasks[t].basin]
  {
    assert TaskOk(WorldOf(s), s.tasks[t]);
    assert HandleOk(s.basins, s.basinIds, s.handles[s.tasks[t].pc.h], s.tasks[t].pc.h);
  }

  lemma StreamStepOnRequest(s: State, e: Event, basin: Name, stream: Name)
    requires Inv(s) && Enabled(s, e) && OnlyCreatorsCreate(s.tasks) && Unasked(s.tasks, basin, stream)
    requires basin in s.basinIds
    ensures (s.basinIds[basin], stream) in Next(s, e).streamIds <==> (s.basinIds[basin], stream) in s.streamIds
  {
    if e.Advance? {
      if s.tasks[e.t].pc.StreamCreate? {
        CallersWorkInTheirBasin(s, e.t);
        BasinIdsDiffer(s.basinIds, s.streamIds, s.disks, s.tasks[e.t].basin, basin);
      }
      AdvanceOnStreamRequest(WorldOf(s), s.tasks[e.t], e.io, (s.basinIds[basin], stream));
    }
  }

  lemma BasinIdsDiffer(basinIds: map<Name, u128>, streamIds: map<(u128, Name), u128>, disks: map<StreamKey, Disk>,
                       n: Name, m: Name)
    requires IdsOk(basinIds, streamIds, disks) && n in basinIds && m in basinIds
    ensures basinIds[n] == basinIds[m] ==> n == m
  {
  }

  lemma AdvanceOnStreamRequest(w: World, k: Task, io: Io, p: (u128, Name))
    requires Feasible(w, k, io) && (k.pc.StreamCreate? ==> (w.handles[k.pc.h].basinId, k.stream) != p)
    ensures p in Effect(w, k, io).streamIds <==> p in w.streamIds
  {
  }

  /** A basin name gets bound only in runs in which somebody who may create it is at work. */
  lemma {:induction false} BasinsAreBoundOnRequest(s: State, es: seq<Event>, basin: Name)
    requires Runnable(s, es) && OnlyCreatorsCreate(s.tasks) && BasinUnasked(s.tasks, basin)
    requires forall e | e in es :: !AsksForBasin(e, basin)
    ensures basin in Run(s, es).basinIds <==> basin in s.basinIds
    decreases |es|
  {
    if es != [] {
      assert es[0] in es && forall e | e in es[1..] :: e in es;
      StepKeepsRequests(s, es[0]);
      StepKeepsUnasked(s, es[0], basin, []);
      BasinStepOnRequest(s, es[0], basin);
      BasinsAreBoundOnRequest(Next(s, es[0]), es[1..], basin);
    }
  }

  /** A stream name of a basin gets bound only in runs in which somebody who may create it is at work. */
  lemma {:induction false} StreamsAreBoundOnRequest(s: State, es: seq<Event>, basin: Name, stream: Name)
    requires Inv(s) && Runnable(s, es) && OnlyCreatorsCreate(s.tasks) && Unasked(s.tasks, basin, stream)
    requires basin in s.basinIds && forall e | e in es :: !AsksFor(e, basin, stream)
    ensures (s.basinIds[basin], stream) in Run(s, es).streamIds <==> (s.basinIds[basin], stream) in s.streamIds
    decreases |es|
  {
    if es != [] {
      assert es[0] in es && forall e | e in es[1..] :: e in es;
      StepKeepsRequests(s, es[0]);
      StepKeepsUnasked(s, es[0], basin, stream);
      StreamStepOnRequest(s, es[0], basin, stream);
      CS.StepGrows(s, es[0]);
      StepKeepsInv(s, es[0]);
      StreamsAreBoundOnRequest(Next(s, es[0]), es[1..], basin, stream);
    }
  }

  // No deadlock

  predicate Finished(pc: Pc) {
    pc.Done? || pc.Failed?
  }

  lemma UpperBound(s: set<nat>) returns (a: nat)
    ensures forall x | x in s :: x < a
  {
    if s == {} {
      a := 0;
    } else {
      var x :| x in s;
      var b := UpperBound(s - {x});
      a := if b <= x then x + 1 else b;
      assert forall y | y in s && y != x :: y in s - {x};
    }
  }

  /** The caller has a next step, for some answer of the storage. */
  ghost predicate MayStep(s: State, t: nat) {
    t in s.tasks && exists io :: MayAdvance(s, s.tasks[t], io)
  }

  lemma MayStepUnlessWaiting(s: State, t: nat)
    requires Inv(s) && t in s.tasks && !Finished(s.tasks[t].pc)
    requires s.tasks[t].pc.BasinWait? ==> s.basinInit.None?
    requires s.tasks[t].pc.StreamWait? ==> s.tasks[t].pc.h !in s.streamInits
    ensures MayStep(s, t)
  {
    var address := UpperBound(s.handles.Keys);
    assert TaskOk(WorldOf(s), s.tasks[t]);
    assert address !in s.handles;
    assert MayAdvance(s, s.tasks[t], Io(false, 0, address));
  }

  /** While any caller is unfinished, some caller can take a step: locks are never waited for in a circle. */
  lemma NoDeadlock(s: State, t: nat)
    requires Inv(s) && t in s.tasks && !Finished(s.tasks[t].pc)
    ensures exists u :: MayStep(s, u)
  {
    var pc := s.tasks[t].pc;
    if pc.BasinWait? && s.basinInit.Some? {
      BasinHolderMayStep(s);
    } else if pc.StreamWait? && pc.h in s.streamInits {
      StreamHolderMayStep(s, pc.h);
    } else {
      MayStepUnlessWaiting(s, t);
    }
  }

  lemma BasinHolderMayStep(s: State)
    requires Inv(s) && s.basinInit.Some?
    ensures MayStep(s, s.basinInit.value)
  {
    MayStepUnlessWaiting(s, s.basinInit.value);
  }

  lemma StreamHolderMayStep(s: State, h: nat)
    requires Inv(s) && h in s.streamInits
    ensures MayStep(s, s.streamInits[h])
  {
    MayStepUnlessWaiting(s, s.streamInits[h]);
  }

  /** A dropped caller leaves no lock behind, and no actor that only it has known of. */
  lemma DroppedCallersHoldNothing(s: State, t: nat)
    requires Inv(s) && t in s.tasks
    ensures var s' := Next(s, Cancel(t));
            && t in s'.tasks && s'.tasks[t].pc.Failed? && s'.basinInit != Some(t)
            && (forall h | h in s'.streamInits :: s'.streamInits[h] != t)
            && (s.tasks[t].pc.StreamInsert? ==> s'.actors == s.actors - {s.tasks[t].pc.actor})
  {
    CancelKeepsInv(s, t);
  }

  // Callers get there

  /** How many steps a caller can still take. */
  function Rank(pc: Pc): nat {
    match pc
    case Start => 15
    case BasinWait => 14
    case BasinCheck => 13
    case BasinLoad => 12
    case BasinCreate => 11
    case BasinInsert(_) => 10
    case BasinUnlock(_) => 9
    case StreamStart(_) => 8
    case StreamWait(_) => 7
    case StreamCheck(_) => 6
    case StreamLoad(_) => 5
    case StreamBlock(_, _) => 4
    case StreamCreate(_) => 4
    case StreamInit(_, _) => 3
    case StreamInsert(_, _) => 2
    case StreamUnlock(_, _) => 1
    case Done(_, _) => 0
    case Failed => 0
  }

  lemma AdvanceDescends(w: World, k: Task, io: Io)
    requires Feasible(w, k, io)
    ensures Rank(NextPc(w, k, io)) < Rank(k.pc)
  {
  }

  predicate UsesStorage(pc: Pc) {
    pc.BasinLoad? || pc.BasinCreate? || pc.StreamLoad? || pc.StreamBlock? || pc.StreamCreate? || pc.StreamInit?
  }

  /** The caller has just looked for a name that is not bound. */
  predicate LooksInVain(w: World, k: Task)
    requires HasHandle(k.pc) ==> k.pc.h in w.handles
  {
    || (k.pc.BasinLoad? && k.basin !in w.basinIds)
    || (k.pc.StreamLoad? && (w.handles[k.pc.h].basinId, k.stream) !in w.streamIds)
  }

  /** A caller fails exactly when a storage access fails, or a name is not bound that it may not create. */
  lemma FailuresHaveCauses(w: World, k: Task, io: Io)
    requires Feasible(w, k, io)
    ensures NextPc(w, k, io).Failed? <==> if io.ok then !k.create && LooksInVain(w, k) else UsesStorage(k.pc)
  {
  }

  predicate BothBound(s: State, basin: Name, stream: Name) {
    basin in s.basinIds && (s.basinIds[basin], stream) in s.streamIds
  }

  /** A caller that may create, or one that looks for names that are bound. */
  ghost predicate MaySucceed(s: State, k: Task) {
    k.create || (Inv(s) && BothBound(s, k.basin, k.stream))
  }

  lemma BoundNamesAreFound(s: State, t: nat)
    requires Inv(s) && t in s.tasks && BothBound(s, s.tasks[t].basin, s.tasks[t].stream)
    ensures HasHandle(s.tasks[t].pc) ==> s.tasks[t].pc.h in s.handles
    ensures !LooksInVain(WorldOf(s), s.tasks[t])
  {
    if HasHandle(s.tasks[t].pc) {
      CallersWorkInTheirBasin(s, t);
    }
  }

  lemma StepKeepsMaySucceed(s: State, e: Event, k: Task, k': Task)
    requires Enabled(s, e) && MaySucceed(s, k)
    requires k'.create == k.create && k'.basin == k.basin && k'.stream == k.stream
    ensures MaySucceed(Next(s, e), k')
  {
    if !k.create {
      StepKeepsInv(s, e);
      CS.StepGrows(s, e);
    }
  }

  function StepOf(e: Event, t: nat): nat {
    if e.Advance? && e.t == t then 1 else 0
  }

  function StepsOf(es: seq<Event>, t: nat): nat {
    if es == [] then 0 else StepOf(es[0], t) + StepsOf(es[1..], t)
  }

  /** The process lives, the caller is not dropped, and its storage accesses succeed. */
  predicate Unharmed(e: Event, t: nat) {
    !e.Restart? && (e.Cancel? ==> e.t != t) && (e.Advance? && e.t == t ==> e.io.ok)
  }

  predicate SameRequest(k: Task, k': Task) {
    k'.basin == k.basin && k'.stream == k.stream && k'.create == k.create
  }

  lemma StepDescends(s: State, e: Event, t: nat)
    requires Enabled(s, e) && t in s.tasks && MaySucceed(s, s.tasks[t]) && !s.tasks[t].pc.Failed? && Unharmed(e, t)
    ensures var s' := Next(s, e);
            && t in s'.tasks && SameRequest(s.tasks[t], s'.tasks[t]) && !s'.tasks[t].pc.Failed?
            && (if e.Advance? && e.t == t then Rank(s'.tasks[t].pc) < Rank(s.tasks[t].pc) else s'.tasks[t] == s.tasks[t])
  {
    if e.Advance? && e.t == t {
      AdvanceDescends(WorldOf(s), s.tasks[t], e.io);
      FailuresHaveCauses(WorldOf(s), s.tasks[t], e.io);
      if !s.tasks[t].create {
        BoundNamesAreFound(s, t);
      }
    }
  }

  /** Whatever other callers do, an unharmed caller that may create, or whose names are bound, does not fail, and takes at
      most 15 steps. */
  lemma {:induction false} CallersDoNotFail(s: State, es: seq<Event>, t: nat)
    requires Runnable(s, es) && t in s.tasks && MaySucceed(s, s.tasks[t]) && !s.tasks[t].pc.Failed?
    requires forall e | e in es :: Unharmed(e, t)
    ensures t in Run(s, es).tasks && !Run(s, es).tasks[t].pc.Failed? && SameRequest(s.tasks[t], Run(s, es).tasks[t])
    ensures StepsOf(es, t) + Rank(Run(s, es).tasks[t].pc) <= Rank(s.tasks[t].pc)
    decreases |es|
  {
    if es != [] {
      assert es[0] in es && forall e | e in es[1..] :: e in es;
      StepDescends(s, es[0], t);
      StepKeepsMaySucceed(s, es[0], s.tasks[t], Next(s, es[0]).tasks[t]);
      CallersDoNotFail(Next(s, es[0]), es[1..], t);
    }
  }

  /** The caller holds the handle of a running actor for the names it asked for. */
  ghost predicate Served(s: State, t: nat, basin: Name, stream: Name) {
    && t in s.tasks && s.tasks[t].pc.Done? && s.tasks[t].pc.actor in s.actors
    && s.actors[s.tasks[t].pc.actor].h in s.handles
    && CS.Serves(s, s.tasks[t].pc.actor) == (basin, stream)
  }

  /** A run that leaves no caller a step to take has served every unharmed caller that may create or whose names are
      bound, whatever failures and drops the others met. */
  lemma CallersAreServed(s: State, es: seq<Event>, t: nat)
    requires Inv(s) && Runnable(s, es) && t in s.tasks && MaySucceed(s, s.tasks[t]) && !s.tasks[t].pc.Failed?
    requires forall e | e in es :: Unharmed(e, t)
    requires forall u :: !MayStep(Run(s, es), u)
    ensures Served(Run(s, es), t, s.tasks[t].basin, s.tasks[t].stream)
  {
    CallersDoNotFail(s, es, t);
    RunKeepsInv(s, es);
    if !Run(s, es).tasks[t].pc.Done? {
      NoDeadlock(Run(s, es), t);
      assert false;
    }
    CS.ServedOnBoundStream(Run(s, es), t);
  }

  /** The same, from the request on: a caller that arrives, asks for two names and is not harmed gets their actor if it
      may create them or they are bound. */
  lemma RequestsAreServed(s: State, t: nat, basin: Name, stream: Name, create: bool, es: seq<Event>)
    requires Inv(s) && t !in s.tasks && (create || BothBound(s, basin, stream))
    requires Runnable(Next(s, Arrive(t, basin, stream, create)), es)
    requires forall e | e in es :: Unharmed(e, t)
    requires forall u :: !MayStep(Run(Next(s, Arrive(t, basin, stream, create)), es), u)
    ensures Served(Run(Next(s, Arrive(t, basin, stream, create)), es), t, basin, stream)
  {
    var e := Arrive(t, basin, stream, create);
    StepKeepsInv(s, e);
    CallersAreServed(Next(s, e), es, t);
  }

  // Callers that find everything cached

  predicate OnFastPath(pc: Pc, h: nat, a: nat) {
    pc == Start || pc == StreamStart(h) || pc == Done(h, a)
  }

  function StepsLeft(pc: Pc): nat {
    if pc.Start? then 2 else if pc.StreamStart? then 1 else 0
  }

  predicate CachedAs(s: State, basin: Name, h: nat, stream: Name, a: nat) {
    CS.BasinCachedAs(s, basin, h) && CS.StreamCachedAs(s, h, stream, a)
  }

  predicate AlwaysCachedAs(s: State, es: seq<Event>, basin: Name, h: nat, stream: Name, a: nat)
    requires Runnable(s, es)
    decreases |es|
  {
    CachedAs(s, basin, h, stream, a) && (es != [] ==> AlwaysCachedAs(Next(s, es[0]), es[1..], basin, h, stream, a))
  }

  lemma {:induction false} CachedStaysCached(s: State, es: seq<Event>, basin: Name, h: nat, stream: Name, a: nat)
    requires Inv(s) && Runnable(s, es) && CS.StaysUp(es) && CachedAs(s, basin, h, stream, a)
    ensures AlwaysCachedAs(s, es, basin, h, stream, a)
    decreases |es|
  {
    if es != [] {
      CS.EntryStays(s, es[0], basin, h, stream, a);
      StepKeepsInv(s, es[0]);
      CachedStaysCached(Next(s, es[0]), es[1..], basin, h, stream, a);
    }
  }

  predicate StaysUnharmed(es: seq<Event>, t: nat) {
    es != [] ==> Unharmed(es[0], t) && StaysUnharmed(es[1..], t)
  }

  lemma {:induction false} UnharmedStaysUp(es: seq<Event>, t: nat)
    requires StaysUnharmed(es, t)
    ensures CS.StaysUp(es)
  {
    if es != [] {
      UnharmedStaysUp(es[1..], t);
    }
  }

  lemma CachedStep(s: State, e: Event, t: nat, h: nat, a: nat)
    requires Enabled(s, e) && Unharmed(e, t) && t in s.tasks && OnFastPath(s.tasks[t].pc, h, a)
    requires CachedAs(s, s.tasks[t].basin, h, s.tasks[t].stream, a)
    ensures t in Next(s, e).tasks && SameRequest(s.tasks[t], Next(s, e).tasks[t])
    ensures OnFastPath(Next(s, e).tasks[t].pc, h, a)
    ensures StepOf(e, t) + StepsLeft(Next(s, e).tasks[t].pc) == StepsLeft(s.tasks[t].pc)
  {
  }

  lemma {:induction false} CachedRun(s: State, es: seq<Event>, t: nat, basin: Name, h: nat, stream: Name, a: nat)
    requires Runnable(s, es) && AlwaysCachedAs(s, es, basin, h, stream, a) && StaysUnharmed(es, t)
    requires t in s.tasks && s.tasks[t].basin == basin && s.tasks[t].stream == stream && OnFastPath(s.tasks[t].pc, h, a)
    ensures t in Run(s, es).tasks && OnFastPath(Run(s, es).tasks[t].pc, h, a) && h in Run(s, es).handles
    ensures StepsOf(es, t) + StepsLeft(Run(s, es).tasks[t].pc) == StepsLeft(s.tasks[t].pc)
    decreases |es|
  {
    if es != [] {
      CachedStep(s, es[0], t, h, a);
      CachedRun(Next(s, es[0]), es[1..], t, basin, h, stream, a);
    }
  }

  lemma FastPathMayStep(s: State, t: nat, h: nat, a: nat)
    requires t in s.tasks && OnFastPath(s.tasks[t].pc, h, a) && h in s.handles && StepsLeft(s.tasks[t].pc) > 0
    ensures MayStep(s, t)
  {
    assert MayAdvance(s, s.tasks[t], Io(true, 0, 0));
  }

  /** A caller whose basin and stream are cached is served in two steps of its own. It takes no lock and at no moment waits
      for anybody, whoever else is creating or loading something. */
  lemma CachedCallersDoNotWait(s: State, es: seq<Event>, t: nat, h: nat, a: nat)
    requires Inv(s) && Runnable(s, es) && t in s.tasks && s.tasks[t].pc.Start? && StaysUnharmed(es, t)
    requires CachedAs(s, s.tasks[t].basin, h, s.tasks[t].stream, a)
    ensures t in Run(s, es).tasks
    ensures var pc := Run(s, es).tasks[t].pc;
            match StepsOf(es, t)
            case 0 => pc == Start && MayStep(Run(s, es), t)
            case 1 => pc == StreamStart(h) && MayStep(Run(s, es), t)
            case _ => pc == Done(h, a)
  {
    UnharmedStaysUp(es, t);
    CachedStaysCached(s, es, s.tasks[t].basin, h, s.tasks[t].stream, a);
    CachedRun(s, es, t, s.tasks[t].basin, h, s.tasks[t].stream, a);
    if StepsOf(es, t) < 2 {
      FastPathMayStep(Run(s, es), t, h, a);
    }
  }
}
