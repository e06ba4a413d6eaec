/** When followers end, and that they get everything they are owed: the other half of exact delivery. */
module FollowerProgress {
  import opened Common
  import opened Storage
  import opened StreamRecord
  import opened Stream
  import opened Actor
  import opened ReaderProtocol
  import L = LogMachine

  // A follower ends only for a reason

  ghost predicate StopIsExcused(s: System, id: nat) {
    id in s.readers && s.readers[id].phase.Stopped? ==> EndsInError(s.readers[id].out)
  }

  lemma StepExcusesStop(s: System, e: Step, id: nat, spent: nat)
    requires Inv(s, spent) && Enabled(s, e) && StopIsExcused(s, id) && e != Progress(id, false)
    ensures StopIsExcused(Next(s, e), id)
  {
    if e.Turn? {
      assert Expected(s.readers, s.mailbox[0]);
    }
  }

  /** A follower has ended only if its client was found gone or its output ends in an error. In particular a number
      without a record does not end it. */
  lemma {:induction false} StopsHaveCauses(s: System, es: seq<Step>, id: nat, spent: nat)
    requires Inv(s, spent) && WithinBudget(spent, |es|) && Runnable(s, es) && StopIsExcused(s, id)
    ensures StopIsExcused(Run(s, es), id) || Progress(id, false) in es
    decreases |es|
  {
    if es != [] && es[0] != Progress(id, false) {
      StepExcusesStop(s, es[0], id, spent);
      var mid := StepKeepsInv(s, es[0], spent);
      StopsHaveCauses(Next(s, es[0]), es[1..], id, mid);
      assert forall e | e in es[1..] :: e in es;
    } else if es != [] {
      assert es[0] in es;
    }
  }

  // Errors other than lagging come from the storage

  /** The follower has been told of a failure, or has passed it on. */
  predicate Carries(s: System, id: nat, e: StreamError) {
    && id in s.readers
    && (s.readers[id].phase == GotRead(Err(e)) || Failed(ReadFailed(e)) in s.readers[id].out)
  }

  lemma StepCarries(s: System, step: Step, id: nat, e: StreamError)
    requires Enabled(s, step) && Carries(Next(s, step), id, e)
    ensures Carries(s, id, e) || (step.Turn? && step.fault.Some? && e == StorageError(step.fault.value))
  {
  }

  /** An error a follower reports is the error of one of the actor's storage accesses. */
  lemma {:induction false} ReadErrorsAreStorageErrors(s: System, es: seq<Step>, id: nat, e: StreamError)
    requires Runnable(s, es) && Carries(Run(s, es), id, e)
    ensures Carries(s, id, e) || exists fault :: Turn(Some(fault)) in es && e == StorageError(fault)
    decreases |es|
  {
    if es != [] {
      ReadErrorsAreStorageErrors(Next(s, es[0]), es[1..], id, e);
      assert es[0] in es && forall step | step in es[1..] :: step in es;
      if Carries(Next(s, es[0]), id, e) {
        StepCarries(s, es[0], id, e);
      }
    }
  }

  // Followers that nothing happens to

  /** The follower's client stays, and its own reads do not fail. Appends and other followers' reads may. */
  predicate Harmless(s: System, e: Step, id: nat)
    requires Enabled(s, e)
  {
    && (e.Progress? && e.reader == id ==> e.connected)
    && (e.Turn? && s.mailbox[0].command.ReadCommand? && s.mailbox[0].client == id ==> e.fault.None?)
  }

  predicate HarmlessRun(s: System, es: seq<Step>, id: nat)
    requires Runnable(s, es)
    decreases |es|
  {
    es != [] ==> Harmless(s, es[0], id) && HarmlessRun(Next(s, es[0]), es[1..], id)
  }

  predicate Lagged(r: Reader) {
    r.phase.Stopped? && r.out != [] && r.out[|r.out| - 1] == Failed(ReaderLagged)
  }

  /** The follower waits for nothing that is not on its way, has heard of no failure, and has ended only by lagging. */
  predicate Undisturbed(s: System, id: nat) {
    id in s.readers ==>
      var r := s.readers[id];
      && (r.phase.Subscribing? ==> Envelope(id, SubscribeCommand) in s.mailbox)
      && (r.phase.AwaitingRead? ==> r.cursor < U64_SIZE && Envelope(id, ReadCommand(r.cursor)) in s.mailbox)
      && (r.phase.GotRead? ==> r.phase.reply.Ok?)
      && (r.phase.Stopped? ==> Lagged(r))
  }

  lemma TurnKeepsUndisturbed(s: System, fault: Option<StorageError>, id: nat)
    requires Enabled(s, Turn(fault)) && Undisturbed(s, id) && Harmless(s, Turn(fault), id)
    requires Expected(s.readers, s.mailbox[0])
    ensures Undisturbed(Next(s, Turn(fault)), id)
  {
    var head, rest := s.mailbox[0], s.mailbox[1..];
    assert s.mailbox == [head] + rest;
    assert forall m | m in s.mailbox :: m == head || m in rest;
  }

  lemma ProgressKeepsUndisturbed(s: System, e: Step, id: nat)
    requires Enabled(s, e) && e.Progress? && Undisturbed(s, id) && Harmless(s, e, id)
    ensures Undisturbed(Next(s, e), id)
  {
    var s', r := Next(s, e), s.readers[e.reader];
    assert forall m | m in s.mailbox :: m in s'.mailbox;
    if e.reader == id && r.phase.Backfilling? && r.cursor < r.tail {
      assert s'.mailbox[|s.mailbox|] == Envelope(id, ReadCommand(r.cursor));
    }
  }

  lemma StepKeepsUndisturbed(s: System, e: Step, id: nat, spent: nat)
    requires Inv(s, spent) && Enabled(s, e) && Undisturbed(s, id) && Harmless(s, e, id)
    ensures Undisturbed(Next(s, e), id)
  {
    match e
    case Turn(fault) =>
      assert Expected(s.readers, s.mailbox[0]);
      TurnKeepsUndisturbed(s, fault, id);
    case Progress(_, _) => ProgressKeepsUndisturbed(s, e, id);
    case Submit(client, data) =>
    case Open(reader, _) =>
      assert Next(s, e).mailbox[|s.mailbox|] == Envelope(reader, SubscribeCommand);
  }

  /** Without disturbance a follower ends only by lagging. */
  lemma {:induction false} UndisturbedFollowersOnlyLag(s: System, es: seq<Step>, id: nat, spent: nat)
    requires Inv(s, spent) && WithinBudget(spent, |es|) && Runnable(s, es)
    requires Undisturbed(s, id) && HarmlessRun(s, es, id)
    ensures Undisturbed(Run(s, es), id)
    decreases |es|
  {
    if es != [] {
      StepKeepsUndisturbed(s, es[0], id, spent);
      var mid := StepKeepsInv(s, es[0], spent);
      UndisturbedFollowersOnlyLag(Next(s, es[0]), es[1..], id, mid);
    }
  }

  /** Neither the actor nor the follower has anything left to do. */
  predicate Quiet(s: System, id: nat) {
    !Enabled(s, Turn(None)) && !Enabled(s, Progress(id, true))
  }

  lemma QuietFollowersHaveCaughtUp(s: System, id: nat, spent: nat)
    requires Inv(s, spent) && Undisturbed(s, id) && Quiet(s, id) && id in s.readers
    ensures Lagged(s.readers[id]) || (s.readers[id].phase.Following? && s.readers[id].position == |s.sent|)
  {
    var r := s.readers[id];
    assert ReaderOk(s.owned.log, s.sent, r);
    assert s.mailbox == [];
    if r.phase.Following? {
      ReceiveIsExact(s.owned.channel, s.sent, r.position);
    }
  }

  /** Complete delivery. Take any run, with any appends, failures of appends and other followers, in which the follower's
      client stays and its reads do not fail. If it leaves the actor and the follower nothing to do, the follower has
      delivered everything it is owed, or has ended by lagging behind a full channel after a gap-free beginning. */
  lemma QuietFollowersAreServed(log: L.Log, es: seq<Step>, spent: nat, id: nat)
    requires log.live.Some? && L.Inv(log, spent) && L.Fresh(log) && WithinBudget(spent, |es|)
    requires Runnable(Started(log), es) && HarmlessRun(Started(log), es, id)
    requires id in Run(Started(log), es).readers && Quiet(Run(Started(log), es), id)
    ensures var s := Run(Started(log), es);
            var r := s.readers[id];
            && s.owned.log.live.Some?
            && (r.out == Deliver(Owed(s.owned.log, r)) ||
                (Lagged(r) && GapFree(r.out, Owed(s.owned.log, r)) && |s.sent| - r.position > STREAM_BROADCAST_BUFFER))
  {
    assert Inv(Started(log), spent);
    var spent' := RunKeepsInv(Started(log), es, spent);
    UndisturbedFollowersOnlyLag(Started(log), es, id, spent);
    QuietFollowersHaveCaughtUp(Run(Started(log), es), id, spent');
    ExactDelivery(log, es, spent, id);
  }

  // Requests are taken as they are made

  /** A follower backfills from the number it was opened with. */
  lemma {:induction false} FollowersKeepTheirStart(s: System, es: seq<Step>, id: nat)
    requires Runnable(s, es) && id in Run(s, es).readers
    ensures var start := Run(s, es).readers[id].start;
            (id in s.readers && s.readers[id].start == start) || Open(id, start) in es
    decreases |es|
  {
    if es != [] {
      FollowersKeepTheirStart(Next(s, es[0]), es[1..], id);
      assert es[0] in es && forall e | e in es[1..] :: e in es;
    }
  }

  /** The queue of commands never holds more than its 1024 places. */
  lemma {:induction false} MailboxIsBounded(s: System, es: seq<Step>)
    requires Runnable(s, es) && |s.mailbox| <= 1024
    ensures |Run(s, es).mailbox| <= 1024
    decreases |es|
  {
    if es != [] {
      MailboxIsBounded(Next(s, es[0]), es[1..]);
    }
  }

  // No follower runs in circles

  /** The steps that have brought a follower where it is: two for each number of the backfill, one to leave it, one for
      each record received, and one to end. */
  function StepsSoFar(r: Reader): int {
    var backfill, follow := 2 * (r.cursor - r.start), r.position - r.joined;
    match r.phase
    case Subscribing => 0
    case Backfilling => backfill
    case AwaitingRead => backfill + 1
    case GotRead(_) => backfill + 1
    case Following => backfill + 1 + follow
    case Stopped => backfill + 2 + follow
  }

  function StepOf(e: Step, id: nat): nat {
    if e.Progress? && e.reader == id then 1 else 0
  }

  function StepsOf(es: seq<Step>, id: nat): nat {
    if es == [] then 0 else StepOf(es[0], id) + StepsOf(es[1..], id)
  }

  function StepsAt(s: System, id: nat): int {
    if id in s.readers then StepsSoFar(s.readers[id]) else 0
  }

  lemma StepCounts(s: System, e: Step, id: nat, spent: nat)
    requires Inv(s, spent) && Enabled(s, e)
    ensures StepsAt(Next(s, e), id) >= StepsAt(s, id) + StepOf(e, id)
  {
    if e.Turn? {
      assert Expected(s.readers, s.mailbox[0]);
    } else if e.Progress? && e.reader == id {
      assert ReaderOk(s.owned.log, s.sent, s.readers[id]);
    }
  }

  lemma {:induction false} RunCounts(s: System, es: seq<Step>, id: nat, spent: nat)
    requires Inv(s, spent) && WithinBudget(spent, |es|) && Runnable(s, es)
    ensures StepsAt(Run(s, es), id) >= StepsAt(s, id) + StepsOf(es, id)
    decreases |es|
  {
    if es != [] {
      StepCounts(s, es[0], id, spent);
      var mid := StepKeepsInv(s, es[0], spent);
      RunCounts(Next(s, es[0]), es[1..], id, mid);
    }
  }

  function Numbers(r: Reader): nat {
    if r.start < r.tail then r.tail - r.start else 0
  }

  predicate CursorOk(s: System, id: nat) {
    id in s.readers && !s.readers[id].phase.Subscribing? ==>
      0 <= s.readers[id].cursor - s.readers[id].start <= Numbers(s.readers[id])
  }

  lemma {:induction false} CursorsStayInRange(s: System, es: seq<Step>, id: nat, spent: nat)
    requires Inv(s, spent) && WithinBudget(spent, |es|) && Runnable(s, es) && CursorOk(s, id)
    ensures CursorOk(Run(s, es), id)
    decreases |es|
  {
    if es != [] {
      StepKeepsCursor(s, es[0], id, spent);
      var mid := StepKeepsInv(s, es[0], spent);
      CursorsStayInRange(Next(s, es[0]), es[1..], id, mid);
    }
  }

  lemma StepKeepsCursor(s: System, e: Step, id: nat, spent: nat)
    requires Inv(s, spent) && Enabled(s, e) && CursorOk(s, id)
    ensures CursorOk(Next(s, e), id)
  {
    if e.Turn? {
      assert Expected(s.readers, s.mailbox[0]);
    } else if e.Progress? && e.reader == id {
      assert ReaderOk(s.owned.log, s.sent, s.readers[id]);
    }
  }

  /** Every step of a follower brings it forward: it takes no more than two for each number between its start and its
      subscribed tail, one for each record broadcast since it subscribed, and two more. */
  lemma FollowersTakeBoundedSteps(log: L.Log, es: seq<Step>, spent: nat, id: nat)
    requires log.live.Some? && L.Inv(log, spent) && L.Fresh(log) && WithinBudget(spent, |es|)
    requires Runnable(Started(log), es) && id in Run(Started(log), es).readers
    requires !Run(Started(log), es).readers[id].phase.Subscribing?
    ensures var s := Run(Started(log), es);
            var r := s.readers[id];
            r.joined <= |s.sent| && StepsOf(es, id) <= 2 * Numbers(r) + (|s.sent| - r.joined) + 2
  {
    assert Inv(Started(log), spent);
    var spent' := RunKeepsInv(Started(log), es, spent);
    RunCounts(Started(log), es, id, spent);
    CursorsStayInRange(Started(log), es, id, spent);
    var s := Run(Started(log), es);
    assert ReaderOk(s.owned.log, s.sent, s.readers[id]);
  }
}
