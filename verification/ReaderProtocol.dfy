/** One actor, any number of appenders and followers: backfill by point reads, then follow the broadcast. */
module ReaderProtocol {
  import opened Common
  import opened Storage
  import opened StreamRecord
  import opened Stream
  import opened Actor
  import opened Sequence
  import L = LogMachine

  const STREAM_COMMAND_BUFFER := 1024

  datatype ReadError = ReaderLagged | ReadFailed(error: StreamError)

  datatype Item = Delivered(record: Record) | Failed(error: ReadError)

  datatype Phase =
    | Subscribing                                             // its subscribe command is queued
    | Backfilling                                             // at the head of the loop over [start, tail)
    | AwaitingRead                                            // its read command is queued
    | GotRead(reply: Result<Option<Record>, StreamError>)     // the reply has arrived
    | Following                                               // in the receive loop
    | Stopped

  /** `tail` is the subscribed next number N, `joined` the channel position at subscription, `position` the next one to
      receive, and `out` everything sent to the client so far. */
  datatype Reader = Reader(start: u64, tail: u64, cursor: nat, joined: nat, position: nat, out: seq<Item>, phase: Phase)

  datatype Envelope = Envelope(client: nat, command: Command)

  /** `sent` (all broadcasts) and `replies` (all append replies) record the history; no step depends on them. */
  datatype System = System(owned: Owned, mailbox: seq<Envelope>, readers: map<nat, Reader>,
                           sent: seq<Record>, replies: seq<Reply>)

  datatype Step =
    | Submit(client: nat, data: Bytes)               // a caller queues an append
    | Open(reader: nat, start: u64)                  // a caller opens a follower
    | Turn(fault: Option<StorageError>)              // the actor handles the oldest command
    | Progress(reader: nat, connected: bool)         // a follower moves on; `connected`: its client still listens

  function Started(log: L.Log): System {
    System(Owned(log, Channel(0, [])), [], map[], [], [])
  }

  predicate MayProgress(s: System, r: Reader) {
    match r.phase
    case Backfilling => r.cursor < r.tail ==> |s.mailbox| < STREAM_COMMAND_BUFFER
    case GotRead(_) => true
    case Following => s.owned.channel.Receive(r.position) != Empty
    case _ => false
  }

  predicate Enabled(s: System, e: Step) {
    match e
    case Submit(_, _) => |s.mailbox| < STREAM_COMMAND_BUFFER
    case Open(id, _) => id !in s.readers && |s.mailbox| < STREAM_COMMAND_BUFFER
    case Turn(_) => s.mailbox != [] && CanHandle(s.owned, s.mailbox[0].command)
    case Progress(id, _) => id in s.readers && MayProgress(s, s.readers[id])
  }

  /** Put one item on the way to the client, or stop if the client is gone. */
  function Emit(r: Reader, item: Item, connected: bool): Reader {
    if !connected then r.(phase := Stopped) else r.(out := r.out + [item])
  }

  function Progressed(r: Reader, channel: Channel, connected: bool): Reader {
    match r.phase
    case Backfilling => if r.cursor < r.tail then r.(phase := AwaitingRead) else r.(phase := Following)
    case GotRead(Ok(Some(record))) => Emit(r.(cursor := r.cursor + 1, phase := Backfilling), Delivered(record), connected)
    case GotRead(Ok(None)) => r.(cursor := r.cursor + 1, phase := Backfilling)
    case GotRead(Err(e)) => Emit(r, Failed(ReadFailed(e)), connected).(phase := Stopped)
    case Following =>
      (match channel.Receive(r.position)
       case Message(record) =>
         var r' := r.(position := r.position + 1);
         if record.seqNum >= r.tail then Emit(r', Delivered(record), connected) else r'
       case Lagged => Emit(r, Failed(ReaderLagged), connected).(phase := Stopped)
       case Empty => r)
    case _ => r
  }

  /** A follower that has something to send notices that its client is gone, sends nothing and ends; one that has nothing
      to send does not notice. */
  lemma GoneClientsEndFollowers(r: Reader, channel: Channel)
    ensures var r' := Progressed(r, channel, false);
            if Progressed(r, channel, true).out == r.out then r' == Progressed(r, channel, true)
            else r'.phase.Stopped? && r'.out == r.out
  {
    assert forall item: Item :: r.out + [item] != r.out;
  }

  function Answered(r: Reader, reply: Reply): Reader {
    match reply
    case Subscribed(position, next) =>
      r.(tail := next, cursor := r.start, joined := position, position := position, phase := Backfilling)
    case Fetched(record) => r.(phase := GotRead(record))
    case Appended(_) => r
  }

  function Next(s: System, e: Step): System
    requires Enabled(s, e)
  {
    match e
    case Submit(client, data) =>
      s.(mailbox := s.mailbox + [Envelope(client, AppendCommand(data))])
    case Open(id, start) =>
      s.(mailbox := s.mailbox + [Envelope(id, SubscribeCommand)],
         readers := s.readers[id := Reader(start, 0, 0, 0, 0, [], Subscribing)])
    case Turn(fault) =>
      var head := s.mailbox[0];
      var (owned', reply) := Handled(s.owned, head.command, fault);
      if reply.Appended? then
        System(owned', s.mailbox[1..], s.readers,
               if reply.result.Ok? then s.sent + [reply.result.value.record] else s.sent, s.replies + [reply])
      else
        s.(owned := owned', mailbox := s.mailbox[1..],
           readers := if head.client in s.readers
                      then s.readers[head.client := Answered(s.readers[head.client], reply)] else s.readers)
    case Progress(id, connected) =>
      var r := s.readers[id];
      s.(readers := s.readers[id := Progressed(r, s.owned.channel, connected)],
         mailbox := if r.phase.Backfilling? && r.cursor < r.tail
                    then s.mailbox + [Envelope(id, ReadCommand(r.cursor))] else s.mailbox)
  }

  predicate Runnable(s: System, es: seq<Step>)
    decreases |es|
  {
    es == [] || (Enabled(s, es[0]) && Runnable(Next(s, es[0]), es[1..]))
  }

  function Run(s: System, es: seq<Step>): System
    requires Runnable(s, es)
    decreases |es|
  {
    if es == [] then s else Run(Next(s, es[0]), es[1..])
  }

  // The stored records of a range, in order

  function Slice(stored: map<u64, Bytes>, lo: nat, hi: nat): seq<Record>
    requires hi <= U64_SIZE
  {
    if hi <= lo then []
    else Slice(stored, lo, hi - 1) + (if hi - 1 in stored then [Record(hi - 1, stored[hi - 1])] else [])
  }

  /** A slice lists exactly the stored records of its range, in strictly increasing order. */
  lemma {:induction false} SliceIsExact(stored: map<u64, Bytes>, lo: nat, hi: nat)
    requires hi <= U64_SIZE
    ensures forall r: Record :: r in Slice(stored, lo, hi) <==> lo <= r.seqNum < hi && Lookup(stored, r.seqNum) == Some(r)
    ensures forall i, j | 0 <= i < j < |Slice(stored, lo, hi)| ::
              Slice(stored, lo, hi)[i].seqNum < Slice(stored, lo, hi)[j].seqNum
  {
    if lo < hi {
      SliceIsExact(stored, lo, hi - 1);
      var front := Slice(stored, lo, hi - 1);
      assert forall i | 0 <= i < |front| :: front[i] in front;
    }
  }

  lemma {:induction false} SliceSplits(stored: map<u64, Bytes>, lo: nat, mid: nat, hi: nat)
    requires lo <= mid <= hi <= U64_SIZE
    ensures Slice(stored, lo, hi) == Slice(stored, lo, mid) + Slice(stored, mid, hi)
    decreases hi
  {
    if mid < hi {
      SliceSplits(stored, lo, mid, hi - 1);
    }
  }

  /** Appending at or above the end of a range does not change what the range holds. */
  lemma {:induction false} SliceIsStable(stored: map<u64, Bytes>, q: u64, data: Bytes, lo: nat, hi: nat)
    requires hi <= q
    ensures Slice(stored[q := data], lo, hi) == Slice(stored, lo, hi)
  {
    if lo < hi {
      SliceIsStable(stored, q, data, lo, hi - 1);
    }
  }

  // What a client has received

  function Deliver(rs: seq<Record>): (items: seq<Item>)
    ensures |items| == |rs| && forall i | 0 <= i < |rs| :: items[i] == Delivered(rs[i])
  {
    seq(|rs|, i requires 0 <= i < |rs| => Delivered(rs[i]))
  }

  /** What a client is owed: the stored records from its start on, or from the subscribed tail if it asked for more. */
  function Low(r: Reader): u64 {
    if r.start <= r.tail then r.start else r.tail
  }

  function Owed(log: L.Log, r: Reader): seq<Record>
    requires log.live.Some?
  {
    Slice(log.stored, Low(r), log.live.value.next)
  }

  predicate EndsInError(out: seq<Item>) {
    out != [] && out[|out| - 1].Failed?
  }

  function WithoutError(out: seq<Item>): seq<Item> {
    if EndsInError(out) then out[..|out| - 1] else out
  }

  /** The items are the first of the owed records, followed by at most one error. */
  ghost predicate GapFree(out: seq<Item>, owed: seq<Record>) {
    |WithoutError(out)| <= |owed| && WithoutError(out) == Deliver(owed[..|WithoutError(out)|])
  }

  /** The receiver's part of the channel starts with the first record at or above the subscribed tail. */
  ghost predicate Joined(log: L.Log, sent: seq<Record>, r: Reader)
    requires log.live.Some?
  {
    && r.joined <= r.position <= |sent|
    && r.tail <= log.live.value.next
    && sent[r.joined..] == Slice(log.stored, r.tail, log.live.value.next)
  }

  ghost predicate BackfillOk(log: L.Log, r: Reader) {
    && r.position == r.joined
    && r.start <= r.cursor && (r.cursor <= r.tail || r.cursor == r.start)
    && (!r.phase.Backfilling? ==> r.cursor < r.tail)
    && (if r.phase.GotRead? && r.phase.reply.Ok? && r.cursor < r.tail
        then r.phase.reply.value == Lookup(log.stored, r.cursor) else true)
    && r.cursor < U64_SIZE
    && r.out == Deliver(Slice(log.stored, r.start, r.cursor))
  }

  ghost predicate FollowOk(log: L.Log, sent: seq<Record>, r: Reader)
    requires r.joined <= r.position <= |sent|
  {
    r.out == Deliver(Slice(log.stored, Low(r), r.tail) + sent[r.joined..r.position])
  }

  ghost predicate StopOk(log: L.Log, sent: seq<Record>, r: Reader)
    requires log.live.Some?
  {
    && GapFree(r.out, Owed(log, r))
    && (EndsInError(r.out) && r.out[|r.out| - 1] == Failed(ReaderLagged) ==>
          |sent| - r.position > STREAM_BROADCAST_BUFFER)
  }

  ghost predicate ReaderOk(log: L.Log, sent: seq<Record>, r: Reader)
    requires log.live.Some?
  {
    if r.phase.Subscribing? then r.out == []
    else
      && Joined(log, sent, r)
      && (if r.phase.Following? then FollowOk(log, sent, r)
          else if r.phase.Stopped? then StopOk(log, sent, r)
          else BackfillOk(log, r))
  }

  /** A queued command is the one its reader is waiting for. */
  predicate Expected(readers: map<nat, Reader>, m: Envelope) {
    match m.command
    case AppendCommand(_) => true
    case SubscribeCommand => m.client in readers && readers[m.client].phase == Subscribing
    case ReadCommand(q) =>
      m.client in readers && readers[m.client].phase == AwaitingRead && readers[m.client].cursor == q
  }

  predicate SameReader(a: Envelope, b: Envelope) {
    !a.command.AppendCommand? && !b.command.AppendCommand? && a.client == b.client
  }

  ghost predicate MailboxOk(mailbox: seq<Envelope>, readers: map<nat, Reader>) {
    && (forall i | 0 <= i < |mailbox| :: Expected(readers, mailbox[i]))
    && (forall i, j | 0 <= i < j < |mailbox| :: !SameReader(mailbox[i], mailbox[j]))
  }

  ghost predicate Inv(s: System, spent: nat) {
    && s.owned.log.live.Some?
    && L.Inv(s.owned.log, spent) && L.Fresh(s.owned.log)
    && s.owned.channel.Holds(s.sent)
    && MailboxOk(s.mailbox, s.readers)
    && forall id | id in s.readers :: ReaderOk(s.owned.log, s.sent, s.readers[id])
  }

  predicate WithinBudget(spent: nat, steps: nat) {
    spent + steps + 2 * DEFAULT_BLOCK_SIZE < U64_SIZE
  }

  // Each kind of step keeps the invariant

  lemma PrefixOfDeliver(xs: seq<Record>, ys: seq<Record>)
    requires xs <= ys
    ensures GapFree(Deliver(xs), ys)
  {
    assert ys[..|xs|] == xs;
  }

  /** What a successful append does to the slices of the log. */
  lemma AppendExtendsSlices(log: L.Log, data: Bytes, lo: nat)
    requires log.live.Some? && L.Fresh(log) && lo <= log.live.value.next < U64_SIZE - 1
    ensures var q := log.live.value.next;
            && Slice(log.stored[q := data], lo, q + 1) == Slice(log.stored, lo, q) + [Record(q, data)]
            && Slice(log.stored, lo, q + 1) == Slice(log.stored, lo, q)
  {
    SliceIsStable(log.stored, log.live.value.next, data, lo, log.live.value.next);
  }

  lemma JoinedSurvivesAppend(log: L.Log, log': L.Log, data: Bytes, ok: bool, sent: seq<Record>, r: Reader)
    requires log.live.Some? && L.Fresh(log) && log.live.value.next < U64_SIZE - 1
    requires log'.live.Some? && log'.live.value.next == log.live.value.next + 1
    requires log'.stored == if ok then log.stored[log.live.value.next := data] else log.stored
    requires Joined(log, sent, r)
    ensures Joined(log', if ok then sent + [Record(log.live.value.next, data)] else sent, r)
    ensures Owed(log, r) <= Owed(log', r)
  {
    AppendExtendsSlices(log, data, r.tail);
    AppendExtendsSlices(log, data, Low(r));
    if ok {
      var record := Record(log.live.value.next, data);
      assert (sent + [record])[r.joined..] == sent[r.joined..] + [record];
    }
  }

  /** What an append, successful or not, leaves of a reader's situation. */
  lemma ReaderSurvivesAppend(log: L.Log, log': L.Log, data: Bytes, ok: bool, sent: seq<Record>, r: Reader)
    requires log.live.Some? && L.Fresh(log) && log.live.value.next < U64_SIZE - 1
    requires log'.live.Some? && log'.live.value.next == log.live.value.next + 1
    requires log'.stored == if ok then log.stored[log.live.value.next := data] else log.stored
    requires ReaderOk(log, sent, r)
    ensures ReaderOk(log', if ok then sent + [Record(log.live.value.next, data)] else sent, r)
  {
    if !r.phase.Subscribing? {
      JoinedSurvivesAppend(log, log', data, ok, sent, r);
      var q := log.live.value.next;
      var sent' := if ok then sent + [Record(q, data)] else sent;
      if r.phase.Following? {
        SliceIsStable(log.stored, q, data, Low(r), r.tail);
        assert sent'[r.joined..r.position] == sent[r.joined..r.position];
      } else if r.phase.Stopped? {
        var n := |WithoutError(r.out)|;
        assert Owed(log, r)[..n] == Owed(log', r)[..n];
      } else if r.cursor <= r.tail {
        SliceIsStable(log.stored, q, data, r.start, r.cursor);
      }
    }
  }

  lemma SubmitKeepsInv(s: System, e: Step, spent: nat)
    requires Inv(s, spent) && Enabled(s, e) && (e.Submit? || e.Open?)
    ensures Inv(Next(s, e), spent)
  {
    var s' := Next(s, e);
    assert forall i | 0 <= i < |s.mailbox| :: s'.mailbox[i] == s.mailbox[i] && Expected(s.readers, s.mailbox[i]);
  }

  lemma AppendTurnKeepsInv(s: System, fault: Option<StorageError>, spent: nat)
    requires Inv(s, spent) && Enabled(s, Turn(fault)) && s.mailbox[0].command.AppendCommand? && WithinBudget(spent, 1)
    ensures Inv(Next(s, Turn(fault)), spent + 1)
  {
    var s' := Next(s, Turn(fault));
    var log, data, ok := s.owned.log, s.mailbox[0].command.data, fault.None?;
    var e := L.Append(data, ok);
    assert L.Cost([e]) == 1 + L.Cost([e][1..]);
    L.InvStep(log, e, spent);
    L.FreshStep(log, e, spent);
    AllocationIsCounterStep(log.live.value, 1);
    assert MailboxOk(s'.mailbox, s'.readers);
    forall id | id in s'.readers ensures ReaderOk(s'.owned.log, s'.sent, s'.readers[id]) {
      ReaderSurvivesAppend(log, s'.owned.log, data, ok, s.sent, s.readers[id]);
    }
  }

  lemma ReplyTurnKeepsInv(s: System, fault: Option<StorageError>, spent: nat)
    requires Inv(s, spent) && Enabled(s, Turn(fault)) && !s.mailbox[0].command.AppendCommand?
    ensures Inv(Next(s, Turn(fault)), spent)
  {
    var s' := Next(s, Turn(fault));
    var id := s.mailbox[0].client;
    assert Expected(s.readers, s.mailbox[0]);
    forall i | 0 <= i < |s'.mailbox| ensures Expected(s'.readers, s'.mailbox[i]) {
      assert s'.mailbox[i] == s.mailbox[i + 1] && Expected(s.readers, s.mailbox[i + 1]);
      assert !SameReader(s.mailbox[0], s.mailbox[i + 1]);
    }
    assert s.sent[|s.sent|..] == [];
    assert ReaderOk(s'.owned.log, s'.sent, s'.readers[id]);
  }

  lemma BackfilledSoFar(log: L.Log, sent: seq<Record>, r: Reader)
    requires log.live.Some? && Joined(log, sent, r) && BackfillOk(log, r)
    ensures GapFree(r.out, Owed(log, r)) && !EndsInError(r.out)
  {
    if r.cursor <= r.tail {
      SliceSplits(log.stored, r.start, r.cursor, log.live.value.next);
      PrefixOfDeliver(Slice(log.stored, r.start, r.cursor), Owed(log, r));
    }
  }

  /** Leaving the backfill loop: the follower has all records of [min(start, tail), tail). */
  lemma BackfillEnds(log: L.Log, sent: seq<Record>, r: Reader)
    requires log.live.Some? && Joined(log, sent, r) && BackfillOk(log, r) && r.cursor >= r.tail
    ensures FollowOk(log, sent, r)
  {
    assert sent[r.joined..r.position] == [];
    var before := Slice(log.stored, Low(r), r.tail);
    assert before == Slice(log.stored, r.start, r.cursor);
    assert before + [] == before;
  }

  lemma BackfillStops(log: L.Log, sent: seq<Record>, r: Reader, r': Reader, e: StreamError)
    requires log.live.Some? && Joined(log, sent, r) && BackfillOk(log, r)
    requires r'.phase.Stopped? && r'.start == r.start && r'.tail == r.tail && r'.joined == r.joined
    requires r'.position == r.position
    requires r'.out == r.out || r'.out == r.out + [Failed(ReadFailed(e))]
    ensures ReaderOk(log, sent, r')
  {
    BackfilledSoFar(log, sent, r);
    assert WithoutError(r'.out) == r.out;
    assert WithoutError(r.out) == r.out;
  }

  lemma BackfillProgress(log: L.Log, sent: seq<Record>, r: Reader, channel: Channel, connected: bool)
    requires log.live.Some? && Joined(log, sent, r) && BackfillOk(log, r)
    requires r.phase.Backfilling? || r.phase.GotRead?
    ensures ReaderOk(log, sent, Progressed(r, channel, connected))
  {
    var r' := Progressed(r, channel, connected);
    if r.phase.Backfilling? {
      if r.cursor >= r.tail {
        BackfillEnds(log, sent, r);
      }
    } else if r.phase.reply.Err? {
      BackfillStops(log, sent, r, r', r.phase.reply.error);
    } else if r.phase.reply.value.Some? && !connected {
      BackfillStops(log, sent, r, r', DeserialiseError);
    } else if r.phase.reply.value.Some? {
      var got, record := Slice(log.stored, r.start, r.cursor), r.phase.reply.value.value;
      assert Deliver(got + [record]) == r.out + [Delivered(record)];
    }
  }

  /** Everything a follower can receive lies at or above its subscribed tail, so nothing received is discarded. */
  lemma ReceivedIsAboveTail(log: L.Log, sent: seq<Record>, r: Reader)
    requires log.live.Some? && Joined(log, sent, r) && r.position < |sent|
    ensures r.tail <= sent[r.position].seqNum
  {
    SliceIsExact(log.stored, r.tail, log.live.value.next);
    assert sent[r.position] == sent[r.joined..][r.position - r.joined];
    assert sent[r.position] in Slice(log.stored, r.tail, log.live.value.next);
  }

  lemma PrefixThroughMiddle<T>(front: seq<T>, s: seq<T>, from: nat, to: nat)
    requires from <= to <= |s|
    ensures front + s[from..to] <= front + s[from..]
    ensures to == |s| ==> front + s[from..to] == front + s[from..]
  {
    assert front + s[from..] == (front + s[from..to]) + s[to..];
  }

  /** A follower's output so far is the beginning of what it is owed, and all of it once it has caught up. */
  lemma FollowedSoFar(log: L.Log, sent: seq<Record>, r: Reader)
    requires log.live.Some? && Joined(log, sent, r) && FollowOk(log, sent, r)
    ensures GapFree(r.out, Owed(log, r)) && !EndsInError(r.out)
    ensures r.position == |sent| ==> r.out == Deliver(Owed(log, r))
  {
    SliceSplits(log.stored, Low(r), r.tail, log.live.value.next);
    var before := Slice(log.stored, Low(r), r.tail);
    PrefixThroughMiddle(before, sent, r.joined, r.position);
    PrefixOfDeliver(before + sent[r.joined..r.position], Owed(log, r));
  }

  lemma FollowMessage(log: L.Log, sent: seq<Record>, r: Reader)
    requires log.live.Some? && Joined(log, sent, r) && FollowOk(log, sent, r) && r.position < |sent|
    ensures FollowOk(log, sent, r.(position := r.position + 1, out := r.out + [Delivered(sent[r.position])]))
  {
    var record := sent[r.position];
    var before := Slice(log.stored, Low(r), r.tail);
    assert sent[r.joined..r.position + 1] == sent[r.joined..r.position] + [record];
    assert before + sent[r.joined..r.position + 1] == (before + sent[r.joined..r.position]) + [record];
    assert Deliver(before + sent[r.joined..r.position + 1]) == r.out + [Delivered(record)];
  }

  /** Stopping, with or without a last error, keeps what has been delivered. */
  lemma FollowStops(log: L.Log, sent: seq<Record>, r: Reader, r': Reader)
    requires log.live.Some? && Joined(log, sent, r) && FollowOk(log, sent, r)
    requires r'.phase.Stopped? && r'.start == r.start && r'.tail == r.tail && r'.joined == r.joined
    requires r.position <= r'.position <= |sent|
    requires r'.out == r.out || (r'.out == r.out + [Failed(ReaderLagged)] && |sent| - r'.position > STREAM_BROADCAST_BUFFER)
    ensures ReaderOk(log, sent, r')
  {
    FollowedSoFar(log, sent, r);
    assert WithoutError(r'.out) == r.out;
    assert WithoutError(r.out) == r.out;
  }

  lemma FollowProgress(log: L.Log, sent: seq<Record>, r: Reader, channel: Channel, connected: bool)
    requires log.live.Some? && Joined(log, sent, r) && FollowOk(log, sent, r)
    requires r.phase.Following? && channel.Holds(sent) && channel.Receive(r.position) != Empty
    ensures ReaderOk(log, sent, Progressed(r, channel, connected))
  {
    ReceiveIsExact(channel, sent, r.position);
    var r' := Progressed(r, channel, connected);
    if channel.Receive(r.position).Lagged? || !connected {
      if channel.Receive(r.position).Message? {
        ReceivedIsAboveTail(log, sent, r);
      }
      FollowStops(log, sent, r, r');
    } else {
      ReceivedIsAboveTail(log, sent, r);
      FollowMessage(log, sent, r);
    }
  }

  lemma ProgressKeepsInv(s: System, id: nat, connected: bool, spent: nat)
    requires Inv(s, spent) && Enabled(s, Progress(id, connected))
    ensures Inv(Next(s, Progress(id, connected)), spent)
  {
    var s' := Next(s, Progress(id, connected));
    var r := s.readers[id];
    assert ReaderOk(s.owned.log, s.sent, r);
    if r.phase.Following? {
      FollowProgress(s.owned.log, s.sent, r, s.owned.channel, connected);
    } else if r.phase.Backfilling? || r.phase.GotRead? {
      BackfillProgress(s.owned.log, s.sent, r, s.owned.channel, connected);
    }
    forall i | 0 <= i < |s.mailbox| ensures Expected(s'.readers, s.mailbox[i]) && s'.mailbox[i] == s.mailbox[i] {
      assert Expected(s.readers, s.mailbox[i]);
    }
  }

  lemma StepKeepsInv(s: System, e: Step, spent: nat) returns (spent': nat)
    requires Inv(s, spent) && Enabled(s, e) && WithinBudget(spent, 1)
    ensures spent <= spent' <= spent + 1 && Inv(Next(s, e), spent')
  {
    spent' := if e.Turn? && s.mailbox[0].command.AppendCommand? then spent + 1 else spent;
    match e
    case Submit(_, _) => SubmitKeepsInv(s, e, spent);
    case Open(_, _) => SubmitKeepsInv(s, e, spent);
    case Progress(id, connected) => ProgressKeepsInv(s, id, connected, spent);
    case Turn(fault) =>
      if s.mailbox[0].command.AppendCommand? {
        AppendTurnKeepsInv(s, fault, spent);
      } else {
        ReplyTurnKeepsInv(s, fault, spent);
      }
  }

  lemma {:induction false} RunKeepsInv(s: System, es: seq<Step>, spent: nat) returns (spent': nat)
    requires Inv(s, spent) && Runnable(s, es) && WithinBudget(spent, |es|)
    ensures spent <= spent' <= spent + |es| && Inv(Run(s, es), spent')
    decreases |es|
  {
    spent' := spent;
    if es != [] {
      var mid := StepKeepsInv(s, es[0], spent);
      spent' := RunKeepsInv(Next(s, es[0]), es[1..], mid);
    }
  }

  /** Main result: whatever the interleaving of appends, failures and other followers, a follower's output is at every
      moment the beginning, without gap, duplicate or reordering, of the stored records from min(start, tail) on, ended
      by at most one error. A follower that has received everything sent has delivered everything it is owed, and one
      that ended as lagged was more than a full channel behind. */
  lemma ExactDelivery(log: L.Log, es: seq<Step>, spent: nat, id: nat)
    requires log.live.Some? && L.Inv(log, spent) && L.Fresh(log) && WithinBudget(spent, |es|)
    requires Runnable(Started(log), es) && id in Run(Started(log), es).readers
    ensures var s := Run(Started(log), es);
            var r := s.readers[id];
            && s.owned.log.live.Some?
            && GapFree(r.out, Owed(s.owned.log, r))
            && (!r.phase.Stopped? ==> !EndsInError(r.out))
            && (r.phase.Following? && r.position == |s.sent| ==> r.out == Deliver(Owed(s.owned.log, r)))
            && (EndsInError(r.out) && r.out[|r.out| - 1] == Failed(ReaderLagged) ==>
                  |s.sent| - r.position > STREAM_BROADCAST_BUFFER)
  {
    var s := Run(Started(log), es);
    assert Inv(Started(log), spent);
    var spent' := RunKeepsInv(Started(log), es, spent);
    var r := s.readers[id];
    assert ReaderOk(s.owned.log, s.sent, r);
    if r.phase.Following? {
      FollowedSoFar(s.owned.log, s.sent, r);
    } else if !r.phase.Subscribing? && !r.phase.Stopped? {
      BackfilledSoFar(s.owned.log, s.sent, r);
    }
  }

  /** What is delivered comes in strictly increasing order, whole, and from the log. */
  lemma GapFreeIsOrdered(out: seq<Item>, stored: map<u64, Bytes>, lo: nat, hi: nat)
    requires hi <= U64_SIZE && GapFree(out, Slice(stored, lo, hi))
    ensures forall i | 0 <= i < |WithoutError(out)| ::
              && out[i].Delivered? && lo <= out[i].record.seqNum < hi
              && Lookup(stored, out[i].record.seqNum) == Some(out[i].record)
    ensures forall i, j | 0 <= i < j < |WithoutError(out)| && out[i].Delivered? && out[j].Delivered? ::
              out[i].record.seqNum < out[j].record.seqNum
  {
    var owed, n := Slice(stored, lo, hi), |WithoutError(out)|;
    SliceIsExact(stored, lo, hi);
    forall i | 0 <= i < n ensures out[i] == Delivered(owed[i]) && owed[i] in owed {
      assert WithoutError(out)[i] == out[i] && owed[..n][i] == owed[i];
    }
  }

  /** In no reachable state is a follower about to receive a record below its subscribed tail: the arm of the receive
      loop that discards records is never taken. */
  lemma NothingIsDiscarded(log: L.Log, es: seq<Step>, spent: nat, id: nat)
    requires log.live.Some? && L.Inv(log, spent) && L.Fresh(log) && WithinBudget(spent, |es|)
    requires Runnable(Started(log), es) && id in Run(Started(log), es).readers
    ensures var s := Run(Started(log), es);
            var r := s.readers[id];
            var received := s.owned.channel.Receive(r.position);
            r.phase.Following? && received.Message? ==> received.record.seqNum >= r.tail
  {
    var s := Run(Started(log), es);
    assert Inv(Started(log), spent);
    var spent' := RunKeepsInv(Started(log), es, spent);
    var r := s.readers[id];
    assert ReaderOk(s.owned.log, s.sent, r);
    if r.phase.Following? && s.owned.channel.Receive(r.position).Message? {
      ReceiveIsExact(s.owned.channel, s.sent, r.position);
      ReceivedIsAboveTail(s.owned.log, s.sent, r);
    }
  }

  /** Below a subscribed tail a read gives the same answer whenever it is made. */
  lemma {:induction false} ReadsBelowTailAreStable(s: System, es: seq<Step>, spent: nat, q: u64)
    requires Inv(s, spent) && WithinBudget(spent, |es|) && Runnable(s, es) && q < s.owned.log.live.value.next
    ensures Lookup(Run(s, es).owned.log.stored, q) == Lookup(s.owned.log.stored, q)
    decreases |es|
  {
    if es != [] {
      var mid := StepKeepsInv(s, es[0], spent);
      AllocationIsCounterStep(s.owned.log.live.value, 1);
      ReadsBelowTailAreStable(Next(s, es[0]), es[1..], mid, q);
    }
  }

  /** A follower that is stopped sends nothing more. */
  lemma {:induction false} StoppedIsFinal(s: System, es: seq<Step>, id: nat, spent: nat)
    requires Inv(s, spent) && WithinBudget(spent, |es|) && Runnable(s, es)
    requires id in s.readers && s.readers[id].phase.Stopped?
    ensures id in Run(s, es).readers && Run(s, es).readers[id] == s.readers[id]
    decreases |es|
  {
    if es != [] {
      var mid := StepKeepsInv(s, es[0], spent);
      assert es[0].Turn? ==> Expected(s.readers, s.mailbox[0]);
      StoppedIsFinal(Next(s, es[0]), es[1..], id, mid);
    }
  }

  // Append replies

  predicate NoFaults(es: seq<Step>) {
    forall i | 0 <= i < |es| :: es[i].Turn? ==> es[i].fault.None?
  }

  /** The k-th processed append took number `first + k` and was answered with the number after it. */
  ghost predicate Consecutive(replies: seq<Reply>, first: nat) {
    forall k | 0 <= k < |replies| ::
      && replies[k].Appended? && replies[k].result.Ok?
      && replies[k].result.value.record.seqNum == first + k
      && replies[k].result.value.nextSeqNum == first + k + 1
  }

  lemma {:induction false} RepliesStayConsecutive(s: System, es: seq<Step>, spent: nat, first: nat)
    requires Inv(s, spent) && WithinBudget(spent, |es|) && Runnable(s, es) && NoFaults(es)
    requires Consecutive(s.replies, first) && s.owned.log.live.value.next == first + |s.replies|
    ensures Consecutive(Run(s, es).replies, first)
    decreases |es|
  {
    if es != [] {
      var mid := StepKeepsInv(s, es[0], spent);
      AllocationIsCounterStep(s.owned.log.live.value, 1);
      assert forall i | 0 <= i < |es[1..]| :: es[1..][i] == es[i + 1];
      RepliesStayConsecutive(Next(s, es[0]), es[1..], mid, first);
    }
  }

  /** Concurrent appends linearise: without storage failures, n processed appends on a fresh stream are answered with
      1, 2, ..., n in processing order, whatever callers and followers do meanwhile. */
  lemma AppendsLinearise(es: seq<Step>)
    requires Runnable(Started(CREATED), es) && NoFaults(es) && WithinBudget(0, |es|)
    ensures Consecutive(Run(Started(CREATED), es).replies, 0)
  {
    assert Inv(Started(CREATED), 0);
    RepliesStayConsecutive(Started(CREATED), es, 0, 0);
  }

  // Commands are handled first in, first out, and every append is answered under its own number

  /** What a step puts into the mailbox. */
  function Queued(s: System, e: Step): seq<Envelope>
    requires Enabled(s, e)
  {
    match e
    case Submit(client, data) => [Envelope(client, AppendCommand(data))]
    case Open(id, _) => [Envelope(id, SubscribeCommand)]
    case Turn(_) => []
    case Progress(id, _) =>
      var r := s.readers[id];
      if r.phase.Backfilling? && r.cursor < r.tail then [Envelope(id, ReadCommand(r.cursor))] else []
  }

  function AllQueued(s: System, es: seq<Step>): seq<Envelope>
    requires Runnable(s, es)
    decreases |es|
  {
    if es == [] then [] else Queued(s, es[0]) + AllQueued(Next(s, es[0]), es[1..])
  }

  /** What the actor's turns of a run handle. */
  function AllHandled(s: System, es: seq<Step>): (handled: seq<Envelope>)
    requires Runnable(s, es)
    ensures |handled| == |Faults(es)|
    decreases |es|
  {
    if es == [] then []
    else if es[0].Turn? then [s.mailbox[0]] + AllHandled(Next(s, es[0]), es[1..])
    else AllHandled(Next(s, es[0]), es[1..])
  }

  /** The outcomes of the storage accesses of the actor's turns. */
  function Faults(es: seq<Step>): (faults: seq<Option<StorageError>>)
    ensures |faults| <= |es|
  {
    if es == [] then [] else if es[0].Turn? then [es[0].fault] + Faults(es[1..]) else Faults(es[1..])
  }

  lemma MailboxStep(s: System, e: Step)
    requires Enabled(s, e)
    ensures if e.Turn? then s.mailbox == [s.mailbox[0]] + Next(s, e).mailbox && Queued(s, e) == []
            else Next(s, e).mailbox == s.mailbox + Queued(s, e)
  {
  }

  lemma TurnRegroups<T>(head: T, mailbox: seq<T>, queued: seq<T>, handled: seq<T>, left: seq<T>)
    requires mailbox + queued == handled + left
    ensures ([head] + mailbox) + ([] + queued) == ([head] + handled) + left
  {
    assert ([head] + mailbox) + ([] + queued) == [head] + (mailbox + queued);
    assert ([head] + handled) + left == [head] + (handled + left);
  }

  lemma QueueRegroups<T>(mailbox: seq<T>, more: seq<T>, queued: seq<T>)
    ensures (mailbox + more) + queued == mailbox + (more + queued)
  {
  }

  /** Over any run the commands that were waiting and those that are queued are handled in that order, one with each turn
      of the actor; the rest, in the same order, is left in the mailbox. */
  lemma {:induction false} FirstInFirstOut(s: System, es: seq<Step>)
    requires Runnable(s, es)
    ensures s.mailbox + AllQueued(s, es) == AllHandled(s, es) + Run(s, es).mailbox
    decreases |es|
  {
    if es == [] {
      assert s.mailbox + [] == [] + s.mailbox;
    } else {
      var s', rest := Next(s, es[0]), es[1..];
      MailboxStep(s, es[0]);
      FirstInFirstOut(s', rest);
      if es[0].Turn? {
        TurnRegroups(s.mailbox[0], s'.mailbox, AllQueued(s', rest), AllHandled(s', rest), Run(s', rest).mailbox);
      } else {
        QueueRegroups(s.mailbox, Queued(s, es[0]), AllQueued(s', rest));
      }
    }
  }

  function Taken(c: Command): nat {
    if c.AppendCommand? then 1 else 0
  }

  /** What an append that takes number `q` is answered: its own data and the number after its own, or its failure. */
  function AppendReply(q: u64, c: Command, fault: Option<StorageError>): seq<Reply>
    requires q + 1 < U64_SIZE
  {
    if !c.AppendCommand? then []
    else if fault.Some? then [Appended(Err(StorageError(fault.value)))]
    else [Appended(Ok(AppendResult(Record(q, c.data), q + 1)))]
  }

  /** What the appends among handled commands add to earlier replies, if each takes one number from `first` on, failed or
      not. */
  function WithReplies(replies: seq<Reply>, first: nat, handled: seq<Envelope>, faults: seq<Option<StorageError>>): seq<Reply>
    requires |handled| == |faults| && first + |handled| < U64_SIZE
    decreases |handled|
  {
    if handled == [] then replies
    else
      var c := handled[0].command;
      WithReplies(replies + AppendReply(first, c, faults[0]), first + Taken(c), handled[1..], faults[1..])
  }

  /** Concurrent appends with any outcomes: replies are given in the order in which the appends are handled, and the k-th
      of them takes the k-th number whether or not it or any other fails. */
  lemma {:induction false} RepliesAreExact(s: System, es: seq<Step>, spent: nat)
    requires Inv(s, spent) && WithinBudget(spent, |es|) && Runnable(s, es)
    ensures Run(s, es).replies ==
            WithReplies(s.replies, s.owned.log.live.value.next, AllHandled(s, es), Faults(es))
    decreases |es|
  {
    if es != [] {
      var mid := StepKeepsInv(s, es[0], spent);
      RepliesAreExact(Next(s, es[0]), es[1..], mid);
      ReplyStep(s, es);
    }
  }

  lemma ReplyStep(s: System, es: seq<Step>)
    requires Runnable(s, es) && es != [] && s.owned.log.live.Some? && s.owned.log.live.value.InBlock()
    requires s.owned.log.live.value.next + |es| < U64_SIZE
    ensures var s', rest := Next(s, es[0]), es[1..];
            && s'.owned.log.live.Some? && s'.owned.log.live.value.next + |rest| < U64_SIZE
            && WithReplies(s.replies, s.owned.log.live.value.next, AllHandled(s, es), Faults(es)) ==
               WithReplies(s'.replies, s'.owned.log.live.value.next, AllHandled(s', rest), Faults(rest))
  {
    if es[0].Turn? {
      var handled, faults := AllHandled(s, es), Faults(es);
      TurnReplies(s, es[0].fault);
      assert handled[0] == s.mailbox[0] && handled[1..] == AllHandled(Next(s, es[0]), es[1..]);
      assert faults[0] == es[0].fault && faults[1..] == Faults(es[1..]);
    } else {
      OtherStepsReplyNothing(s, es[0]);
    }
  }

  lemma OtherStepsReplyNothing(s: System, e: Step)
    requires Enabled(s, e) && !e.Turn?
    ensures Next(s, e).replies == s.replies && Next(s, e).owned == s.owned
  {
  }

  lemma TurnReplies(s: System, fault: Option<StorageError>)
    requires s.owned.log.live.Some? && s.owned.log.live.value.InBlock() && Enabled(s, Turn(fault))
    requires s.owned.log.live.value.next + 1 < U64_SIZE
    ensures var c, next, s' := s.mailbox[0].command, s.owned.log.live.value.next, Next(s, Turn(fault));
            && s'.owned.log.live.Some? && s'.owned.log.live.value.next == next + Taken(c)
            && s'.replies == s.replies + AppendReply(next, c, fault)
  {
    if s.mailbox[0].command.AppendCommand? {
      AllocationIsCounterStep(s.owned.log.live.value, 1);
    }
  }

  const CREATED: L.Log := L.Log(true, Some(DEFAULT_CURSOR.block), map[], Some(DEFAULT_CURSOR))
}
