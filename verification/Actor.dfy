/** The actor that owns a stream: it executes one command at a time and broadcasts what it has appended. */
module Actor {
  import opened Common
  import opened Storage
  import opened StreamRecord
  import opened Stream
  import L = LogMachine
  import SL = StreamLayout

  const STREAM_BROADCAST_BUFFER := 1024

  // The bounded broadcast channel

  /** The channel keeps the newest records; `dropped` older ones have been overwritten. */
  datatype Channel = Channel(dropped: nat, buffer: seq<Record>) {
    function Tail(): nat {
      dropped + |buffer|
    }

    function Send(r: Record): Channel {
      if |buffer| < STREAM_BROADCAST_BUFFER then Channel(dropped, buffer + [r])
      else Channel(dropped + 1, buffer[1..] + [r])
    }

    function Receive(position: nat): Received {
      if position < dropped then Lagged
      else if position < Tail() then Message(buffer[position - dropped])
      else Empty
    }

    /** The channel holds the last part of everything ever sent, dropping no more than it must. */
    ghost predicate Holds(sent: seq<Record>) {
      && Tail() == |sent|
      && buffer == sent[dropped..]
      && |buffer| <= STREAM_BROADCAST_BUFFER
      && (dropped > 0 ==> |buffer| == STREAM_BROADCAST_BUFFER)
    }
  }

  datatype Received = Message(record: Record) | Lagged | Empty

  lemma SendKeepsNewest(c: Channel, sent: seq<Record>, r: Record)
    requires c.Holds(sent)
    ensures c.Send(r).Holds(sent + [r])
  {
  }

  /** A receiver is told that it lagged exactly when it is more than the capacity behind; otherwise it gets the very
      record sent at its position. */
  lemma ReceiveIsExact(c: Channel, sent: seq<Record>, position: nat)
    requires c.Holds(sent) && position <= |sent|
    ensures c.Receive(position) == (if |sent| - position > STREAM_BROADCAST_BUFFER then Lagged
                                    else if position < |sent| then Message(sent[position])
                                    else Empty)
  {
  }

  // Commands

  datatype Command = AppendCommand(data: Bytes) | ReadCommand(seqNum: u64) | SubscribeCommand

  datatype Reply =
    | Appended(result: Result<AppendResult, StreamError>)
    | Fetched(record: Result<Option<Record>, StreamError>)
    | Subscribed(position: nat, nextSeqNum: u64)

  /** What the actor owns: the log with its live allocator, and the sending end of the channel. */
  datatype Owned = Owned(log: L.Log, channel: Channel)

  predicate CanHandle(o: Owned, c: Command) {
    o.log.live.Some? && (c.AppendCommand? ==> L.Enabled(o.log, L.Append(c.data, true)))
  }

  function Lookup(stored: map<u64, Bytes>, seqNum: u64): Option<Record> {
    if seqNum in stored then Some(Record(seqNum, stored[seqNum])) else None
  }

  function Handled(o: Owned, c: Command, fault: Option<StorageError>): (Owned, Reply)
    requires CanHandle(o, c)
  {
    match c
    case AppendCommand(data) =>
      var log' := L.Next(o.log, L.Append(data, fault.None?));
      var record := Record(o.log.live.value.next, data);
      if fault.Some? then (Owned(log', o.channel), Appended(Err(StorageError(fault.value))))
      else (Owned(log', o.channel.Send(record)), Appended(Ok(AppendResult(record, log'.live.value.next))))
    case ReadCommand(seqNum) =>
      (o, Fetched(if fault.Some? then Err(StorageError(fault.value)) else Ok(Lookup(o.log.stored, seqNum))))
    case SubscribeCommand =>
      (o, Subscribed(o.channel.Tail(), o.log.live.value.next))
  }

  /** The actor's state and replies after a whole command queue. */
  ghost function HandledAll(o: Owned, cs: seq<Command>, faults: seq<Option<StorageError>>): (r: (Owned, seq<Reply>))
    requires |cs| == |faults| && o.log.live.Some? && o.log.live.value.block.blockSize >= 1
    ensures r.0.log.live.Some? && r.0.log.live.value.block.blockSize >= 1
    decreases |cs|
  {
    if cs == [] then (o, [])
    else
      var n := |cs| - 1;
      var before := HandledAll(o, cs[..n], faults[..n]);
      var after := Handled(before.0, cs[n], faults[n]);
      (after.0, before.1 + [after.1])
  }

  lemma OneTurnMore(o: Owned, cs: seq<Command>, faults: seq<Option<StorageError>>, i: nat)
    requires i < |cs| == |faults| && o.log.live.Some? && o.log.live.value.block.blockSize >= 1
    ensures var before := HandledAll(o, cs[..i], faults[..i]);
            var after := Handled(before.0, cs[i], faults[i]);
            HandledAll(o, cs[..i + 1], faults[..i + 1]) == (after.0, before.1 + [after.1])
  {
    assert cs[..i + 1][..i] == cs[..i] && faults[..i + 1][..i] == faults[..i];
  }

  /** Every command gets one reply, in the order of the queue, and it is the reply to that command in the state the
      commands before it have left. */
  lemma {:induction false} RepliesFollowCommands(o: Owned, cs: seq<Command>, faults: seq<Option<StorageError>>, i: nat)
    requires i < |cs| == |faults| && o.log.live.Some? && o.log.live.value.block.blockSize >= 1
    ensures var replies := HandledAll(o, cs, faults).1;
            && |replies| == |cs|
            && replies[i] == Handled(HandledAll(o, cs[..i], faults[..i]).0, cs[i], faults[i]).1
    decreases |cs|
  {
    var n := |cs| - 1;
    OneReplyEach(o, cs[..n], faults[..n]);
    if i < n {
      RepliesFollowCommands(o, cs[..n], faults[..n], i);
      assert cs[..n][..i] == cs[..i] && faults[..n][..i] == faults[..i];
    }
  }

  lemma {:induction false} OneReplyEach(o: Owned, cs: seq<Command>, faults: seq<Option<StorageError>>)
    requires |cs| == |faults| && o.log.live.Some? && o.log.live.value.block.blockSize >= 1
    ensures |HandledAll(o, cs, faults).1| == |cs|
    decreases |cs|
  {
    if cs != [] {
      var n := |cs| - 1;
      OneReplyEach(o, cs[..n], faults[..n]);
    }
  }

  class StreamActor {
    const stream: Stream
    var broadcaster: Channel

    constructor (stream: Stream)
      ensures this.stream == stream && broadcaster == Channel(0, [])
    {
      this.stream := stream;
      broadcaster := Channel(0, []);
    }

    ghost predicate Valid()
      reads stream.allocator, stream.recordStorage
    {
      && SL.WellFormed(stream.recordStorage.tree, stream.metadata.basinId, stream.metadata.streamId)
      && stream.allocator.currentBlock.blockSize >= 1
    }

    ghost function View(): Owned
      reads this, stream.allocator, stream.recordStorage
    {
      Owned(stream.LogView(), broadcaster)
    }

    /** One turn of the command loop. */
    method Handle(c: Command, fault: Option<StorageError>) returns (reply: Reply)
      requires Valid()
      modifies this, stream.allocator, stream.recordStorage
      ensures Valid()
      ensures (View(), reply) == Handled(old(View()), c, fault)
      // A read that does not fail is answered with the stored record or none, and a failed one with its error.
      ensures c.ReadCommand? ==>
                && View() == old(View())
                && reply == Fetched(if fault.Some? then Err(StorageError(fault.value))
                                    else if c.seqNum in View().log.stored
                                    then Ok(Some(Record(c.seqNum, View().log.stored[c.seqNum]))) else Ok(None))
      ensures c.SubscribeCommand? ==>
                View() == old(View()) && reply == Subscribed(broadcaster.dropped + |broadcaster.buffer|, View().log.live.value.next)
      // An append that does not fail is stored, broadcast and answered under one number; a failed one is none of these.
      ensures c.AppendCommand? && fault.None? ==>
                var record := Record(old(View()).log.live.value.next, c.data);
                && reply == Appended(Ok(AppendResult(record, View().log.live.value.next)))
                && broadcaster == old(broadcaster).Send(record)
                && View().log.stored == old(View()).log.stored[record.seqNum := c.data]
      ensures c.AppendCommand? && fault.Some? ==>
                && reply == Appended(Err(StorageError(fault.value)))
                && broadcaster == old(broadcaster)
                && View().log.stored == old(View()).log.stored && View().log.block == old(View()).log.block
    {
      match c
      case AppendCommand(data) =>
        var result := stream.Append(data, fault);
        if result.Ok? {
          broadcaster := broadcaster.Send(result.value.record);
        }
        reply := Appended(result);
      case ReadCommand(seqNum) =>
        var found := stream.Read(seqNum, fault);
        reply := Fetched(found);
      case SubscribeCommand =>
        var next := stream.NextSeqNum();
        reply := Subscribed(broadcaster.Tail(), next);
    }

    /** The loop over a queue of commands, each with the outcome of its storage access, in arrival order. */
    method Run(queue: seq<Command>, faults: seq<Option<StorageError>>) returns (replies: seq<Reply>)
      requires Valid() && |queue| == |faults|
      modifies this, stream.allocator, stream.recordStorage
      ensures Valid()
      ensures (View(), replies) == HandledAll(old(View()), queue, faults)
      ensures |replies| == |queue|
    {
      ghost var start := View();
      replies := [];
      var i := 0;
      while i < |queue|
        invariant 0 <= i <= |queue|
        invariant Valid()
        invariant (View(), replies) == HandledAll(start, queue[..i], faults[..i])
      {
        var reply := Handle(queue[i], faults[i]);
        OneTurnMore(start, queue, faults, i);
        replies := replies + [reply];
        i := i + 1;
      }
      assert queue[..i] == queue && faults[..i] == faults;
      OneReplyEach(start, queue, faults);
    }
  }
}
