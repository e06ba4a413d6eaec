/** One stream's durable state under appends, failed writes, crashes and reloads. */
module LogMachine {
  import opened Common
  import opened Sequence

  /** `created`, `block` and `stored` are on disk; `live` is the allocator of the actor that owns the stream, if any. */
  datatype Log = Log(created: bool, block: Option<SeqBlock>, stored: map<u64, Bytes>, live: Option<Cursor>)

  datatype Event =
    | CreateMeta                        // first write of a creation
    | CreateBlock                       // second write of a creation; the creator keeps the default allocator
    | Load                              // reopen from disk
    | Append(data: Bytes, ok: bool)     // one append, with the outcome of its write
    | Crash                             // the owner disappears

  const NEW := Log(false, None, map[], None)

  function Reloaded(block: Option<SeqBlock>): Cursor {
    match block
    case Some(b) => ResumedCursor(b)
    case None => DEFAULT_CURSOR
  }

  predicate Enabled(s: Log, e: Event) {
    match e
    case CreateMeta => !s.created && s.live.None?
    case CreateBlock => s.created && s.block.None? && s.stored == map[] && s.live.None?
    case Load => s.created && s.live.None?
    case Append(_, _) => s.live.Some? && 1 <= s.live.value.block.blockSize
    case Crash => true
  }

  /** The allocator moves before the write and stays moved when the write fails. */
  function Next(s: Log, e: Event): Log
    requires Enabled(s, e)
  {
    match e
    case CreateMeta => s.(created := true)
    case CreateBlock => s.(block := Some(DEFAULT_CURSOR.block), live := Some(DEFAULT_CURSOR))
    case Load => s.(live := Some(Reloaded(s.block)))
    case Append(data, ok) =>
      var a := Allocated(s.live.value, 1);
      if !ok then s.(live := Some(a.cursor))
      else Log(s.created, if a.reported.Some? then a.reported else s.block, s.stored[a.start := data], Some(a.cursor))
    case Crash => s.(live := None)
  }

  datatype Ack = Ack(seqNum: u64, data: Bytes)

  predicate Runnable(s: Log, es: seq<Event>)
    decreases |es|
  {
    es == [] || (Enabled(s, es[0]) && Runnable(Next(s, es[0]), es[1..]))
  }

  function Run(s: Log, es: seq<Event>): Log
    requires Runnable(s, es)
    decreases |es|
  {
    if es == [] then s else Run(Next(s, es[0]), es[1..])
  }

  predicate Acknowledged(e: Event) {
    e.Append? && e.ok
  }

  /** The (number, data) pairs acknowledged to clients, in order. */
  function Acks(s: Log, es: seq<Event>): seq<Ack>
    requires Runnable(s, es)
    decreases |es|
  {
    if es == [] then []
    else (if Acknowledged(es[0]) then [Ack(s.live.value.next, es[0].data)] else []) + Acks(Next(s, es[0]), es[1..])
  }

  /** Some acknowledged append of the run writes a number that already holds a record. */
  predicate Overwrites(s: Log, es: seq<Event>)
    requires Runnable(s, es)
    decreases |es|
  {
    es != [] && ((Acknowledged(es[0]) && s.live.value.next in s.stored) || Overwrites(Next(s, es[0]), es[1..]))
  }

  /** Sequence numbers a run can use up: one for each append, at most a block for each reload. */
  function Cost(es: seq<Event>): nat {
    if es == [] then 0
    else (if es[0].Append? then 1 else if es[0].Load? then DEFAULT_BLOCK_SIZE else 0) + Cost(es[1..])
  }

  predicate WithinBudget(spent: nat, es: seq<Event>) {
    spent + Cost(es) + 2 * DEFAULT_BLOCK_SIZE < U64_SIZE
  }

  // State conditions

  function ResumePoint(block: Option<SeqBlock>): u64 {
    Reloaded(block).next
  }

  /** A reload would continue above everything stored. */
  ghost predicate Covered(s: Log) {
    forall q | q in s.stored :: q < ResumePoint(s.block)
  }

  /** The live allocator is above everything stored. */
  ghost predicate Fresh(s: Log) {
    s.live.Some? ==> forall q | q in s.stored :: q < s.live.value.next
  }

  /** The block the live allocator works through is the one on disk. */
  predicate Synced(s: Log) {
    s.live.Some? ==> s.block == Some(s.live.value.block)
  }

  ghost predicate Inv(s: Log, spent: nat) {
    && (s.block.Some? ==> s.block.value.blockSize == DEFAULT_BLOCK_SIZE && s.block.value.start <= spent)
    && (s.live.Some? ==>
          && s.live.value.block.blockSize == DEFAULT_BLOCK_SIZE
          && s.live.value.InBlock()
          && s.live.value.next <= spent
          // An allocator ahead of the disk has left the stored block behind for good.
          && (Synced(s) || ResumePoint(s.block) <= s.live.value.block.start))
    && (!s.created ==> s == NEW)
  }

  /** Every load of the run finds all stored records below the end of the stored block. */
  ghost predicate LoadsCovered(s: Log, es: seq<Event>)
    requires Runnable(s, es)
    decreases |es|
  {
    es != [] ==> (es[0].Load? ==> Covered(s)) && LoadsCovered(Next(s, es[0]), es[1..])
  }

  // Preservation, step by step

  lemma InvStep(s: Log, e: Event, spent: nat)
    requires Inv(s, spent) && Enabled(s, e) && WithinBudget(spent, [e])
    ensures Inv(Next(s, e), spent + Cost([e]))
  {
    assert Cost([e]) == (if e.Append? then 1 else if e.Load? then DEFAULT_BLOCK_SIZE else 0) + Cost([e][1..]);
    if e.Append? {
      AllocationIsCounterStep(s.live.value, 1);
    }
  }

  lemma FreshStep(s: Log, e: Event, spent: nat)
    requires Inv(s, spent) && Enabled(s, e) && WithinBudget(spent, [e])
    requires Fresh(s) && (e.Load? ==> Covered(s))
    ensures Fresh(Next(s, e))
    ensures Acknowledged(e) ==> s.live.value.next !in s.stored
  {
    if e.Append? {
      AllocationIsCounterStep(s.live.value, 1);
    }
  }

  lemma BudgetSplits(spent: nat, es: seq<Event>)
    requires es != [] && WithinBudget(spent, es)
    ensures WithinBudget(spent, [es[0]])
    ensures WithinBudget(spent + Cost([es[0]]), es[1..])
    ensures Cost(es) == Cost([es[0]]) + Cost(es[1..])
  {
    assert Cost([es[0]]) == (if es[0].Append? then 1 else if es[0].Load? then DEFAULT_BLOCK_SIZE else 0) + Cost([es[0]][1..]);
  }

  /** After any run at all the tail is bounded by appends + 4096 * reloads, and nothing in the state can overflow. */
  lemma {:induction false} InvHolds(s: Log, es: seq<Event>, spent: nat)
    requires Inv(s, spent) && Runnable(s, es) && WithinBudget(spent, es)
    ensures Inv(Run(s, es), spent + Cost(es))
    decreases |es|
  {
    if es != [] {
      BudgetSplits(spent, es);
      InvStep(s, es[0], spent);
      InvHolds(Next(s, es[0]), es[1..], spent + Cost([es[0]]));
    }
  }

  ghost predicate Increasing(acks: seq<Ack>) {
    forall i, j | 0 <= i < j < |acks| :: acks[i].seqNum < acks[j].seqNum
  }

  ghost predicate Holds(stored: map<u64, Bytes>, a: Ack) {
    a.seqNum in stored && stored[a.seqNum] == a.data
  }

  ghost predicate Above(acks: seq<Ack>, stored: map<u64, Bytes>) {
    forall a, q | a in acks && q in stored :: q < a.seqNum
  }

  lemma {:induction false} NeverOverwrites(s: Log, es: seq<Event>, spent: nat)
    requires Inv(s, spent) && Fresh(s)
    requires Runnable(s, es) && WithinBudget(spent, es) && LoadsCovered(s, es)
    ensures !Overwrites(s, es)
    ensures Fresh(Run(s, es))
    ensures Above(Acks(s, es), s.stored)
    decreases |es|
  {
    if es != [] {
      var e, s' := es[0], Next(s, es[0]);
      BudgetSplits(spent, es);
      InvStep(s, e, spent);
      FreshStep(s, e, spent);
      NeverOverwrites(s', es[1..], spent + Cost([e]));
      assert forall q | q in s.stored :: q in s'.stored;
    }
  }

  lemma {:induction false} AcksIncrease(s: Log, es: seq<Event>, spent: nat)
    requires Inv(s, spent) && Fresh(s)
    requires Runnable(s, es) && WithinBudget(spent, es) && LoadsCovered(s, es)
    ensures Increasing(Acks(s, es))
    decreases |es|
  {
    if es != [] {
      var e, s' := es[0], Next(s, es[0]);
      BudgetSplits(spent, es);
      InvStep(s, e, spent);
      FreshStep(s, e, spent);
      AcksIncrease(s', es[1..], spent + Cost([e]));
      NeverOverwrites(s', es[1..], spent + Cost([e]));
      if Acknowledged(e) {
        assert s.live.value.next in s'.stored;
        assert forall i | 0 <= i < |Acks(s', es[1..])| :: Acks(s', es[1..])[i] in Acks(s', es[1..]);
      }
    }
  }

  lemma {:induction false} DiskHoldsAcks(s: Log, es: seq<Event>, a: Ack)
    requires Runnable(s, es) && !Overwrites(s, es)
    ensures Holds(Run(s, es).stored, a) <==> Holds(s.stored, a) || a in Acks(s, es)
    decreases |es|
  {
    if es != [] {
      DiskHoldsAcks(Next(s, es[0]), es[1..], a);
    }
  }

  /** Crash safety over whole runs: if every reload finds the stored records covered, no acknowledged record is ever
      written again, numbers are acknowledged in increasing order, and the disk holds exactly what was acknowledged. */
  lemma CrashSafety(es: seq<Event>)
    requires Runnable(NEW, es) && WithinBudget(0, es) && LoadsCovered(NEW, es)
    ensures !Overwrites(NEW, es)
    ensures Increasing(Acks(NEW, es))
    ensures forall a :: Holds(Run(NEW, es).stored, a) <==> a in Acks(NEW, es)
  {
    NeverOverwrites(NEW, es, 0);
    AcksIncrease(NEW, es, 0);
    forall a ensures Holds(Run(NEW, es).stored, a) <==> a in Acks(NEW, es) {
      DiskHoldsAcks(NEW, es, a);
    }
  }

  // A discipline on traces that makes every load covered

  /** A write that carried a new block has failed and the stream has not been reloaded since. */
  predicate Poison(s: Log, e: Event, poisoned: bool)
    requires Enabled(s, e)
  {
    if e.Append? then poisoned || (!e.ok && Allocated(s.live.value, 1).reported.Some?)
    else poisoned && !e.Load? && !e.CreateBlock?
  }

  predicate PoisonedAfter(s: Log, es: seq<Event>, poisoned: bool)
    requires Runnable(s, es)
    decreases |es|
  {
    if es == [] then poisoned else PoisonedAfter(Next(s, es[0]), es[1..], Poison(s, es[0], poisoned))
  }

  /** Creation runs to completion before any load, and after a failed write that carried a new block the owner does
      not append again until the stream is reloaded. */
  predicate Disciplined(s: Log, es: seq<Event>, poisoned: bool)
    requires Runnable(s, es)
    decreases |es|
  {
    es != [] ==>
      && (es[0].Load? ==> s.block.Some?)
      && (es[0].Append? ==> !poisoned)
      && Disciplined(Next(s, es[0]), es[1..], Poison(s, es[0], poisoned))
  }

  ghost predicate Settled(s: Log, poisoned: bool) {
    && Covered(s)
    && (!poisoned ==> Synced(s))
  }

  lemma {:induction false} DisciplineCoversLoads(s: Log, es: seq<Event>, poisoned: bool, spent: nat)
    requires Inv(s, spent) && Fresh(s) && Settled(s, poisoned)
    requires Runnable(s, es) && WithinBudget(spent, es) && Disciplined(s, es, poisoned)
    ensures LoadsCovered(s, es)
    ensures Settled(Run(s, es), PoisonedAfter(s, es, poisoned))
    decreases |es|
  {
    if es != [] {
      var e := es[0];
      BudgetSplits(spent, es);
      InvStep(s, e, spent);
      FreshStep(s, e, spent);
      if e.Append? {
        AllocationIsCounterStep(s.live.value, 1);
      }
      DisciplineCoversLoads(Next(s, e), es[1..], Poison(s, e, poisoned), spent + Cost([e]));
    }
  }

  /** Under the discipline nothing acknowledged is ever lost or overwritten, for any number of crashes. */
  lemma DisciplinedRunsAreSafe(es: seq<Event>)
    requires Runnable(NEW, es) && WithinBudget(0, es) && Disciplined(NEW, es, false)
    ensures !Overwrites(NEW, es)
    ensures Increasing(Acks(NEW, es))
    ensures forall a :: Holds(Run(NEW, es).stored, a) <==> a in Acks(NEW, es)
    ensures Covered(Run(NEW, es))
    ensures !PoisonedAfter(NEW, es, false) ==> Synced(Run(NEW, es))
  {
    DisciplineCoversLoads(NEW, es, false, 0);
    CrashSafety(es);
  }

  // Exactly when a reload is safe

  /** A block is on disk and every stored record lies below its end. */
  ghost predicate Recoverable(s: Log) {
    s.block.Some? && Covered(s)
  }

  /** No write of the run fails and no creation is resumed; crashes and reloads are free. */
  predicate FaultFree(es: seq<Event>) {
    forall i | 0 <= i < |es| :: Acknowledged(es[i]) || es[i].Load? || es[i].Crash?
  }

  lemma {:induction false} SyncedRunsStayCovered(s: Log, es: seq<Event>, spent: nat)
    requires Inv(s, spent) && Fresh(s) && Recoverable(s) && Synced(s)
    requires Runnable(s, es) && WithinBudget(spent, es) && FaultFree(es)
    ensures LoadsCovered(s, es)
    decreases |es|
  {
    if es != [] {
      var e := es[0];
      BudgetSplits(spent, es);
      InvStep(s, e, spent);
      FreshStep(s, e, spent);
      if e.Append? {
        AllocationIsCounterStep(s.live.value, 1);
      }
      assert forall i | 0 <= i < |es[1..]| :: es[1..][i] == es[i + 1];
      SyncedRunsStayCovered(Next(s, e), es[1..], spent + Cost([e]));
    }
  }

  function Appends(n: nat): (es: seq<Event>)
    ensures |es| == n && forall i | 0 <= i < n :: es[i] == Append([], true)
  {
    seq(n, i => Append([], true))
  }

  lemma {:induction false} CostOfAppends(n: nat)
    ensures Cost(Appends(n)) == n
  {
    if n > 0 {
      assert Appends(n)[1..] == Appends(n - 1);
      CostOfAppends(n - 1);
    }
  }

  /** Appending on from `next` reaches every later number. */
  lemma {:induction false} AppendsReach(s: Log, q: u64, spent: nat)
    requires Inv(s, spent) && s.live.Some? && s.live.value.next <= q && q in s.stored
    requires WithinBudget(spent, Appends(q - s.live.value.next + 1))
    ensures var es := Appends(q - s.live.value.next + 1);
            Runnable(s, es) && Overwrites(s, es)
    decreases q - s.live.value.next
  {
    var n := q - s.live.value.next + 1;
    var e := Append([], true);
    assert Appends(n)[0] == e && Appends(n)[1..] == Appends(n - 1);
    if s.live.value.next < q {
      BudgetSplits(spent, Appends(n));
      InvStep(s, e, spent);
      AllocationIsCounterStep(s.live.value, 1);
      AppendsReach(Next(s, e), q, spent + Cost([e]));
    } else {
      AllocationIsCounterStep(s.live.value, 1);
      assert Appends(0) == [];
    }
  }

  /** Main exactness result. Take the disk as any run whatever has left it, with no owner. Fault-free continuations
      never overwrite a record if and only if a block is stored and all stored records lie below its end. */
  lemma ReloadIsSafeIff(history: seq<Event>)
    requires Runnable(NEW, history) && WithinBudget(0, history + [Load])
    requires Run(NEW, history).created && Run(NEW, history).live.None?
    ensures var s := Run(NEW, history);
            Recoverable(s) <==>
            forall es | Runnable(s, es) && FaultFree(es) && WithinBudget(Reserved(s), es) :: !Overwrites(s, es)
  {
    var s := Run(NEW, history);
    CostOfSum(history, [Load]);
    assert Cost([Load]) == DEFAULT_BLOCK_SIZE + Cost([Load][1..]);
    InvHolds(NEW, history, 0);
    StoredBelowSpent(NEW, history, 0);
    if Recoverable(s) {
      forall es | Runnable(s, es) && FaultFree(es) && WithinBudget(Reserved(s), es) ensures !Overwrites(s, es) {
        SyncedRunsStayCovered(s, es, Reserved(s));
        NeverOverwrites(s, es, Reserved(s));
      }
    } else {
      var es := UnsafeContinuation(s, Cost(history));
    }
  }

  lemma {:induction false} CostOfSum(es: seq<Event>, fs: seq<Event>)
    ensures Cost(es + fs) == Cost(es) + Cost(fs)
  {
    if es == [] {
      assert es + fs == fs;
    } else {
      assert (es + fs)[1..] == es[1..] + fs;
      CostOfSum(es[1..], fs);
    }
  }

  /** Start of the stored block: the numbers a reload can rely on not having skipped. */
  function Reserved(s: Log): nat {
    if s.block.Some? then s.block.value.start else 0
  }

  lemma {:induction false} StoredBelowSpent(s: Log, es: seq<Event>, spent: nat)
    requires Inv(s, spent) && Runnable(s, es) && WithinBudget(spent, es)
    requires forall q | q in s.stored :: q < spent
    ensures forall q | q in Run(s, es).stored :: q < spent + Cost(es)
    decreases |es|
  {
    if es != [] {
      BudgetSplits(spent, es);
      InvStep(s, es[0], spent);
      if es[0].Append? {
        AllocationIsCounterStep(s.live.value, 1);
      }
      StoredBelowSpent(Next(s, es[0]), es[1..], spent + Cost([es[0]]));
    }
  }

  lemma UnsafeContinuation(s: Log, spent: nat) returns (es: seq<Event>)
    requires s.created && s.live.None? && Inv(s, spent) && !Recoverable(s)
    requires spent + 3 * DEFAULT_BLOCK_SIZE < U64_SIZE && forall q | q in s.stored :: q < spent
    ensures Runnable(s, es) && FaultFree(es) && WithinBudget(Reserved(s), es) && Overwrites(s, es)
  {
    if s.block.Some? {
      var q :| q in s.stored && ResumePoint(s.block) <= q;
      es := CatchUp(s, spent, q);
    } else {
      es := [Load, Append([], true), Crash, Load, Append([], true)];
      DefaultBlockIsReused(s);
    }
  }

  /** A reload below a stored record runs into it by appending. */
  lemma CatchUp(s: Log, spent: nat, q: u64) returns (es: seq<Event>)
    requires s.created && s.live.None? && Inv(s, spent) && s.block.Some? && q in s.stored && ResumePoint(s.block) <= q
    requires q < spent && spent + 3 * DEFAULT_BLOCK_SIZE < U64_SIZE
    ensures Runnable(s, es) && FaultFree(es) && WithinBudget(Reserved(s), es) && Overwrites(s, es)
  {
    var appends := Appends(q - ResumePoint(s.block) + 1);
    es := [Load] + appends;
    assert es[0] == Load && es[1..] == appends;
    CostOfAppends(|appends|);
    assert Cost(es) == DEFAULT_BLOCK_SIZE + |appends|;
    BudgetSplits(Reserved(s), es);
    InvStep(s, Load, Reserved(s));
    AppendsReach(Next(s, Load), q, Reserved(s) + Cost([Load]));
  }

  /** Without a stored block two reloads in a row start from the same default block. */
  lemma DefaultBlockIsReused(s: Log)
    requires s.created && s.live.None? && s.block.None?
    ensures var es := [Load, Append([], true), Crash, Load, Append([], true)];
            Runnable(s, es) && FaultFree(es) && WithinBudget(Reserved(s), es) && Overwrites(s, es)
  {
    var es := [Load, Append([], true), Crash, Load, Append([], true)];
    assert es[1..] == [Append([], true), Crash, Load, Append([], true)];
    assert es[1..][1..] == [Crash, Load, Append([], true)];
    assert es[1..][1..][1..] == [Load, Append([], true)];
    assert es[1..][1..][1..][1..] == [Append([], true)];
    var s1 := Next(s, Load);
    var s2 := Next(s1, Append([], true));
    var s4 := Next(Next(s2, Crash), Load);
    assert Overwrites(s4, [Append([], true)]);
  }

  /** Whatever has happened before, from a covered state a successful append leaves the stream covered exactly when
      its allocator works through the stored block or the write itself carries the next one. */
  lemma AppendStaysCoveredIff(s: Log, data: Bytes, spent: nat)
    requires Inv(s, spent) && s.live.Some? && Covered(s) && WithinBudget(spent, [Append(data, true)])
    ensures Covered(Next(s, Append(data, true))) <==>
            Synced(s) || Allocated(s.live.value, 1).reported.Some?
  {
    var s' := Next(s, Append(data, true));
    AllocationIsCounterStep(s.live.value, 1);
    assert s.live.value.next in s'.stored;
  }

  lemma Prepended(s: Log, e: Event, rest: seq<Event>)
    requires Enabled(s, e) && Runnable(Next(s, e), rest)
    ensures Runnable(s, [e] + rest) && Run(s, [e] + rest) == Run(Next(s, e), rest)
    ensures Acks(s, [e] + rest) ==
            (if Acknowledged(e) then [Ack(s.live.value.next, e.data)] else []) + Acks(Next(s, e), rest)
  {
    assert ([e] + rest)[1..] == rest;
  }

  lemma DisciplinePrepended(s: Log, e: Event, rest: seq<Event>)
    requires Enabled(s, e) && Runnable(Next(s, e), rest) && Disciplined(Next(s, e), rest, false)
    requires !Poison(s, e, false) && (e.Load? ==> s.block.Some?)
    ensures Runnable(s, [e] + rest) && Disciplined(s, [e] + rest, false)
  {
    assert ([e] + rest)[1..] == rest;
  }

  // The two ways in which the code does lose a record, as shortest runs

  lemma Prefixed(s: Log, e: Event, rest: seq<Event>)
    requires Enabled(s, e) && Runnable(Next(s, e), rest) && Overwrites(Next(s, e), rest)
    ensures Runnable(s, [e] + rest) && Overwrites(s, [e] + rest)
  {
    assert ([e] + rest)[1..] == rest;
  }

  /** From a stream just reloaded at 4096 with block [0, 4096) on disk. */
  lemma UnpersistedBlockIsReused(s: Log, a: Bytes, b: Bytes)
    requires s.created && s.block == Some(SeqBlock(0, 4096)) && s.live == Some(Cursor(4096, SeqBlock(0, 4096)))
    ensures var es := [Append(a, false), Append(a, true), Crash, Load, Append(b, true), Append(b, true)];
            Runnable(s, es) && Overwrites(s, es)
  {
    var s1 := Next(s, Append(a, false));
    var s2 := Next(s1, Append(a, true));
    var s4 := Next(Next(s2, Crash), Load);
    var s5 := Next(s4, Append(b, true));
    assert s5.live.value.next == 4097 && 4097 in s5.stored;
    assert Runnable(Next(s5, Append(b, true)), [Append(b, true)][1..]);
    Prefixed(s4, Append(b, true), [Append(b, true)]);
    Prefixed(Next(s2, Crash), Load, [Append(b, true), Append(b, true)]);
    Prefixed(s2, Crash, [Load, Append(b, true), Append(b, true)]);
    Prefixed(s1, Append(a, true), [Crash, Load, Append(b, true), Append(b, true)]);
    Prefixed(s, Append(a, false), [Append(a, true), Crash, Load, Append(b, true), Append(b, true)]);
  }

  /** A failed write carried a new block, the owner went on appending, and the next reload reuses its numbers. */
  lemma FailedBlockWriteLosesRecord(a: Bytes, b: Bytes)
    ensures var es := [CreateMeta, CreateBlock, Crash, Load] +
                      [Append(a, false), Append(a, true), Crash, Load, Append(b, true), Append(b, true)];
            Runnable(NEW, es) && Overwrites(NEW, es)
  {
    var s1 := Next(NEW, CreateMeta);
    var s2 := Next(s1, CreateBlock);
    var s3 := Next(s2, Crash);
    var tail := [Append(a, false), Append(a, true), Crash, Load, Append(b, true), Append(b, true)];
    UnpersistedBlockIsReused(Next(s3, Load), a, b);
    Prefixed(s3, Load, tail);
    Prefixed(s2, Crash, [Load] + tail);
    Prefixed(s1, CreateBlock, [Crash] + ([Load] + tail));
    Prefixed(NEW, CreateMeta, [CreateBlock] + ([Crash] + ([Load] + tail)));
    assert [CreateMeta, CreateBlock, Crash, Load] + tail ==
           [CreateMeta] + ([CreateBlock] + ([Crash] + ([Load] + tail)));
  }

  /** Creation stopped between its two writes, so the stream is served from a block that is on no disk. */
  lemma HalfCreatedStreamLosesRecord(a: Bytes, b: Bytes)
    ensures var es := [CreateMeta, Crash, Load, Append(a, true), Crash, Load, Append(b, true)];
            Runnable(NEW, es) && Overwrites(NEW, es)
  {
    var s3 := Next(Next(Next(NEW, CreateMeta), Crash), Load);
    var s4 := Next(s3, Append(a, true));
    var s6 := Next(Next(s4, Crash), Load);
    assert 0 in s6.stored && s6.live.value.next == 0;
    assert Runnable(Next(s6, Append(b, true)), [Append(b, true)][1..]);
    Prefixed(Next(s4, Crash), Load, [Append(b, true)]);
    Prefixed(s4, Crash, [Load, Append(b, true)]);
    Prefixed(s3, Append(a, true), [Crash, Load, Append(b, true)]);
    Prefixed(Next(Next(NEW, CreateMeta), Crash), Load, [Append(a, true), Crash, Load, Append(b, true)]);
    Prefixed(Next(NEW, CreateMeta), Crash, [Load, Append(a, true), Crash, Load, Append(b, true)]);
    Prefixed(NEW, CreateMeta, [Crash, Load, Append(a, true), Crash, Load, Append(b, true)]);
  }

  // How many numbers are used and how many are skipped

  function Loads(es: seq<Event>): nat {
    if es == [] then 0 else (if es[0].Load? then 1 else 0) + Loads(es[1..])
  }

  lemma {:induction false} CostWithoutFailures(s: Log, es: seq<Event>)
    requires Runnable(s, es) && forall i | 0 <= i < |es| :: es[i].Append? ==> es[i].ok
    ensures Cost(es) == |Acks(s, es)| + DEFAULT_BLOCK_SIZE * Loads(es)
    decreases |es|
  {
    if es != [] {
      CostWithoutFailures(Next(s, es[0]), es[1..]);
    }
  }

  /** With all writes succeeding, n appends and r reloads leave the tail at no more than n + 4096 r, and the block in
      use and the one after it end below 2^64: no sum or difference in the allocator has wrapped. */
  lemma TailBound(es: seq<Event>)
    requires Runnable(NEW, es) && WithinBudget(0, es)
    requires forall i | 0 <= i < |es| :: es[i].Append? ==> es[i].ok
    ensures var s := Run(NEW, es);
            s.live.Some? ==>
              && s.live.value.next <= |Acks(NEW, es)| + DEFAULT_BLOCK_SIZE * Loads(es)
              && s.live.value.block.start <= s.live.value.next <= s.live.value.block.start + DEFAULT_BLOCK_SIZE
              && s.live.value.block.start + 2 * DEFAULT_BLOCK_SIZE < U64_SIZE
  {
    InvHolds(NEW, es, 0);
    CostWithoutFailures(NEW, es);
  }

  /** A reload skips what is left of the block in use, and nothing if nothing was appended since the last reload. */
  lemma ReloadSkipsRestOfBlock(s: Log, spent: nat)
    requires s.created && s.live.Some? && Synced(s) && Inv(s, spent)
    ensures var s' := Next(Next(s, Crash), Load);
            && s'.live.value.next - s.live.value.next == s.live.value.block.start + DEFAULT_BLOCK_SIZE - s.live.value.next
            && Next(Next(s', Crash), Load) == s'
  {
  }

  /** Whether its write succeeds or not, an append takes the next number and leaves the allocator at the one after it; a
      new block is taken up exactly when that one is the end of the current block. */
  lemma AppendTakesOneNumber(s: Log, data: Bytes, ok: bool)
    requires s.live.Some? && s.live.value.InBlock() && 1 <= s.live.value.block.blockSize
    requires s.live.value.block.start + 2 * s.live.value.block.blockSize < U64_SIZE
    ensures var before, after := s.live.value, Next(s, Append(data, ok)).live;
            && after.Some? && after.value.next == before.next + 1 && after.value.InBlock()
            && after.value.block.blockSize == before.block.blockSize
            && after.value.block.start ==
               if before.next + 1 < before.block.start + before.block.blockSize then before.block.start
               else before.block.start + before.block.blockSize
  {
    AllocationIsCounterStep(s.live.value, 1);
  }

  /** What a crash-free run of appends acknowledges if the i-th of them takes number `first + i`, failed or not. */
  ghost predicate Numbered(acks: seq<Ack>, first: nat, es: seq<Event>) {
    forall a :: a in acks <==> exists i: nat :: AcknowledgedAs(es, i, first, a)
  }

  predicate AcknowledgedAs(es: seq<Event>, i: nat, first: nat, a: Ack) {
    i < |es| && Acknowledged(es[i]) && a.seqNum == first + i && a.data == es[i].data
  }

  lemma NumberedPrepended(acks: seq<Ack>, first: nat, es: seq<Event>, all: seq<Ack>)
    requires es != [] && Numbered(acks, first + 1, es[1..])
    requires Acknowledged(es[0]) ==> first < U64_SIZE
    requires all == (if Acknowledged(es[0]) then [Ack(first, es[0].data)] else []) + acks
    ensures Numbered(all, first, es)
  {
    forall a ensures a in all <==> exists i: nat :: AcknowledgedAs(es, i, first, a) {
      if a in acks {
        var i: nat :| AcknowledgedAs(es[1..], i, first + 1, a);
        assert AcknowledgedAs(es, i + 1, first, a);
      } else if a in all {
        assert AcknowledgedAs(es, 0, first, a);
      }
      if i: nat :| i > 0 && AcknowledgedAs(es, i, first, a) {
        assert AcknowledgedAs(es[1..], i - 1, first + 1, a);
      }
    }
  }

  /** Without crashes, appends with any outcomes take consecutive numbers: the i-th takes `first + i` whether or not it or
      any before it failed, and exactly the successful ones are acknowledged, under their number and with their data. */
  lemma {:induction false} AppendsTakeTheirNumbers(s: Log, es: seq<Event>, spent: nat)
    requires Inv(s, spent) && s.live.Some? && WithinBudget(spent, es)
    requires forall i | 0 <= i < |es| :: es[i].Append?
    ensures Runnable(s, es) && Numbered(Acks(s, es), s.live.value.next, es)
    ensures Run(s, es).live.Some? && Run(s, es).live.value.next == s.live.value.next + |es|
    decreases |es|
  {
    if es != [] {
      BudgetSplits(spent, es);
      InvStep(s, es[0], spent);
      AppendTakesOneNumber(s, es[0].data, es[0].ok);
      assert forall i | 0 <= i < |es[1..]| :: es[1..][i] == es[i + 1];
      AppendsTakeTheirNumbers(Next(s, es[0]), es[1..], spent + Cost([es[0]]));
      NumberedPrepended(Acks(Next(s, es[0]), es[1..]), s.live.value.next, es, Acks(s, es));
    }
  }

  /** Successful appends to one owner are numbered consecutively in the order in which they are processed; from a
      fresh stream the numbers are 0, 1, ..., so the replied tails are exactly 1 to n. */
  lemma {:induction false} AppendsAreConsecutive(s: Log, es: seq<Event>, spent: nat)
    requires Inv(s, spent) && s.live.Some? && WithinBudget(spent, es)
    requires forall i | 0 <= i < |es| :: Acknowledged(es[i])
    ensures Runnable(s, es) && |Acks(s, es)| == |es|
    ensures forall i | 0 <= i < |es| :: Acks(s, es)[i].seqNum == s.live.value.next + i
    ensures forall i | 0 <= i < |es| && Acknowledged(es[i]) :: Acks(s, es)[i].data == es[i].data
    ensures Run(s, es).live.Some? && Run(s, es).live.value.next == s.live.value.next + |es|
    decreases |es|
  {
    if es != [] {
      BudgetSplits(spent, es);
      InvStep(s, es[0], spent);
      AllocationIsCounterStep(s.live.value, 1);
      assert forall i | 0 <= i < |es[1..]| :: es[1..][i] == es[i + 1];
      AppendsAreConsecutive(Next(s, es[0]), es[1..], spent + Cost([es[0]]));
    }
  }
}
