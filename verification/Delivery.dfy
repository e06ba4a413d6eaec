/** Recovery and delivery together: followers of a recovered stream receive what was acknowledged, in any earlier life
    of the stream or in this one. */
module Delivery {
  import opened Common
  import opened StreamRecord
  import opened Actor
  import opened ReaderProtocol
  import L = LogMachine

  // Runs of the machine, one after the other

  lemma {:induction false} RunsCompose(s: L.Log, es: seq<L.Event>, fs: seq<L.Event>)
    requires L.Runnable(s, es) && L.Runnable(L.Run(s, es), fs)
    ensures L.Runnable(s, es + fs) && L.Run(s, es + fs) == L.Run(L.Run(s, es), fs)
    decreases |es|
  {
    if es == [] {
      assert es + fs == fs;
    } else {
      assert (es + fs)[1..] == es[1..] + fs;
      RunsCompose(L.Next(s, es[0]), es[1..], fs);
    }
  }

  lemma {:induction false} CoveredLoadsCompose(s: L.Log, es: seq<L.Event>, fs: seq<L.Event>)
    requires L.Runnable(s, es) && L.Runnable(s, es + fs) && L.LoadsCovered(s, es)
    requires forall i | 0 <= i < |fs| :: fs[i].Append?
    ensures L.LoadsCovered(s, es + fs)
    decreases |es + fs|
  {
    if es == [] {
      assert es + fs == fs;
      if fs != [] {
        assert [] + fs[1..] == fs[1..];
        CoveredLoadsCompose(L.Next(s, fs[0]), [], fs[1..]);
      }
    } else {
      assert (es + fs)[1..] == es[1..] + fs;
      CoveredLoadsCompose(L.Next(s, es[0]), es[1..], fs);
    }
  }

  // The protocol's appends are a run of the machine

  function AppendOf(s: System, e: Step): seq<L.Event>
    requires Enabled(s, e)
  {
    if e.Turn? && s.mailbox[0].command.AppendCommand?
    then [L.Append(s.mailbox[0].command.data, e.fault.None?)] else []
  }

  function AppendsOf(s: System, es: seq<Step>): seq<L.Event>
    requires Runnable(s, es)
    decreases |es|
  {
    if es == [] then [] else AppendOf(s, es[0]) + AppendsOf(Next(s, es[0]), es[1..])
  }

  lemma {:induction false} ProtocolRunsTheMachine(s: System, es: seq<Step>)
    requires Runnable(s, es)
    ensures var fs := AppendsOf(s, es);
            && L.Runnable(s.owned.log, fs) && Run(s, es).owned.log == L.Run(s.owned.log, fs)
            && L.Cost(fs) <= |es| && forall i | 0 <= i < |fs| :: fs[i].Append?
    decreases |es|
  {
    if es != [] {
      var rest := AppendsOf(Next(s, es[0]), es[1..]);
      ProtocolRunsTheMachine(Next(s, es[0]), es[1..]);
      if AppendOf(s, es[0]) == [] {
        assert AppendsOf(s, es) == rest;
      } else {
        var e := AppendOf(s, es[0])[0];
        assert AppendsOf(s, es) == [e] + rest && ([e] + rest)[1..] == rest;
        L.Prepended(s.owned.log, e, rest);
      }
    }
  }

  ghost predicate WasAcknowledged(acks: seq<L.Ack>, r: Record) {
    L.Ack(r.seqNum, r.data) in acks
  }

  /** After any disciplined history of crashes and failures, and with any interleaving of appends and followers since:
      whatever a follower has been sent was acknowledged, and a follower that has caught up has been sent every record
      ever acknowledged at or above its starting point. */
  lemma FollowersSeeWhatWasAcknowledged(history: seq<L.Event>, es: seq<Step>, id: nat)
    requires L.Runnable(L.NEW, history) && L.Disciplined(L.NEW, history, false)
    requires L.Run(L.NEW, history).live.Some?
    requires Runnable(Started(L.Run(L.NEW, history)), es) && WithinBudget(L.Cost(history), |es|)
    requires id in Run(Started(L.Run(L.NEW, history)), es).readers
    ensures var s0 := Started(L.Run(L.NEW, history));
            var s := Run(s0, es);
            var r := s.readers[id];
            var all := history + AppendsOf(s0, es);
            && L.Runnable(L.NEW, all)
            && (forall record: Record | Delivered(record) in r.out :: WasAcknowledged(L.Acks(L.NEW, all), record))
            && (r.phase.Following? && r.position == |s.sent| ==>
                  forall record: Record | WasAcknowledged(L.Acks(L.NEW, all), record) && record.seqNum >= Low(r) ::
                    Delivered(record) in r.out)
  {
    var log := L.Run(L.NEW, history);
    var s0 := Started(log);
    var s := Run(s0, es);
    var r := s.readers[id];
    var fs := AppendsOf(s0, es);
    RecoveredLog(history);
    ProtocolRunsTheMachine(s0, es);
    ExactDelivery(log, es, L.Cost(history), id);
    WholeHistory(history, fs, |es|);
    var next := s.owned.log.live.value.next;
    SliceIsExact(s.owned.log.stored, Low(r), next);
    var acks := L.Acks(L.NEW, history + fs);
    forall record: Record
      ensures Lookup(s.owned.log.stored, record.seqNum) == Some(record) <==> WasAcknowledged(acks, record)
    {
      assert L.Holds(s.owned.log.stored, L.Ack(record.seqNum, record.data)) <==> L.Ack(record.seqNum, record.data) in acks;
    }
    forall record: Record | Delivered(record) in r.out ensures WasAcknowledged(acks, record) {
      DeliveredIsOwed(r.out, Owed(s.owned.log, r), record);
    }
    if r.phase.Following? && r.position == |s.sent| {
      forall record: Record | WasAcknowledged(acks, record) && record.seqNum >= Low(r) ensures Delivered(record) in r.out {
        assert record in Owed(s.owned.log, r);
        var i :| 0 <= i < |Owed(s.owned.log, r)| && Owed(s.owned.log, r)[i] == record;
        assert r.out[i] == Delivered(record);
      }
    }
  }

  lemma DeliveredIsOwed(out: seq<Item>, owed: seq<Record>, record: Record)
    requires GapFree(out, owed) && Delivered(record) in out
    ensures record in owed
  {
    var i :| 0 <= i < |out| && out[i] == Delivered(record);
    assert i < |WithoutError(out)| && WithoutError(out)[i] == out[i];
    assert WithoutError(out)[i] == Delivered(owed[..|WithoutError(out)|][i]);
    assert owed[i] == record;
  }

  /** What recovery hands to the actor. */
  lemma RecoveredLog(history: seq<L.Event>)
    requires L.Runnable(L.NEW, history) && L.WithinBudget(0, history) && L.Disciplined(L.NEW, history, false)
    ensures L.LoadsCovered(L.NEW, history)
    ensures L.Inv(L.Run(L.NEW, history), L.Cost(history)) && L.Fresh(L.Run(L.NEW, history))
  {
    L.DisciplineCoversLoads(L.NEW, history, false, 0);
    L.InvHolds(L.NEW, history, 0);
    L.NeverOverwrites(L.NEW, history, 0);
  }

  lemma WholeHistory(history: seq<L.Event>, fs: seq<L.Event>, steps: nat)
    requires L.Runnable(L.NEW, history) && L.LoadsCovered(L.NEW, history)
    requires L.Runnable(L.Run(L.NEW, history), fs) && (forall i | 0 <= i < |fs| :: fs[i].Append?)
    requires L.Cost(fs) <= steps && WithinBudget(L.Cost(history), steps)
    ensures L.Runnable(L.NEW, history + fs)
    ensures L.Run(L.NEW, history + fs) == L.Run(L.Run(L.NEW, history), fs)
    ensures forall a :: L.Holds(L.Run(L.NEW, history + fs).stored, a) <==> a in L.Acks(L.NEW, history + fs)
    ensures L.Fresh(L.Run(L.NEW, history + fs))
  {
    RunsCompose(L.NEW, history, fs);
    CoveredLoadsCompose(L.NEW, history, fs);
    L.CostOfSum(history, fs);
    L.CrashSafety(history + fs);
    L.NeverOverwrites(L.NEW, history + fs, 0);
  }
}
