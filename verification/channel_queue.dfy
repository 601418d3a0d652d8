/** The wait queue: who may be on it, hand-over in arrival order, and the phases of `Receiver::drop`. */
module ChannelQueue {
  import opened Wrappers
  import opened ChannelCore
  import opened ChannelProtocol

  /** Link `w` belongs to a `send` future that has returned `Pending` or is being dropped. */
  ghost predicate LinkOf<V>(c: Channel<V>, w: Waiter) {
    && w.id in c.senders && w.id !in c.sh.cells
    && match c.senders[w.id]
       case Parked(_, waker, ticket, _) => waker == w.waker && ticket == w.ticket
       case Unwinding(_) => true
       case _ => false
  }

  ghost predicate Dropping(pc: ReceiverPc) {
    pc.Draining? || pc.DrainReading? || pc.PoppingWaiters? || pc.WakingWaiter? || pc.Gone?
  }

  ghost predicate SenderQueueOk<V>(c: Channel<V>, id: Id)
    requires id in c.senders
  {
    match c.senders[id]
    case Parked(_, _, _, _) => id in Ids(c.sh.waiters) || id in c.sh.cells || c.sh.receiverDropped
    case Unwinding(back) => back.Some? ==> c.sh.receiverDropped
    case Unlinked(back) => back.Some? ==> c.sh.receiverDropped
    case _ => id !in c.sh.cells
  }

  /** Arrival numbers: granted ones in order and before every waiter's. */
  ghost predicate ArrivalOrder(s: Shared) {
    && InOrder(s.waiters)
    && (forall i, j :: 0 <= i < j < |s.granted| ==> s.granted[i] < s.granted[j])
    && (forall i, w :: 0 <= i < |s.granted| && w in s.waiters ==> s.granted[i] < w.ticket)
    && (forall i :: 0 <= i < |s.granted| ==> s.granted[i] < s.ticket)
    && (forall w :: w in s.waiters ==> w.ticket < s.ticket)
  }

  ghost predicate QueueOk<V>(c: Channel<V>) {
    && (c.sh.waiters != [] ==> c.sh.freeq == [])
    && Distinct(c.sh.waiters)
    && ArrivalOrder(c.sh)
    && (forall w :: w in c.sh.waiters ==> LinkOf(c, w))
    && (forall id :: id in c.sh.cells ==> id in c.senders)
    && (forall id :: id in c.senders ==> SenderQueueOk(c, id))
    && (c.sh.receiverDropped <==> Dropping(c.receiver))
    && (c.receiver.Gone? ==> c.sh.waiters == [])
  }

  lemma ReturnKeepsArrivalOrder(s: Shared, slot: nat)
    requires ArrivalOrder(s)
    ensures ArrivalOrder(ReturnFreeSlot(s, slot))
  {
    if s.waiters != [] {
      assert s.waiters[0] in s.waiters;
      forall w | w in s.waiters[1..] ensures s.waiters[0].ticket < w.ticket && w in s.waiters {
        var k :| 0 <= k < |s.waiters[1..]| && s.waiters[1..][k] == w;
        assert w == s.waiters[k + 1];
      }
    }
  }

  /** `return_free_slot` by a sender that is done with its call, or by the receiver. */
  lemma ReturnKeepsQueue<V>(c: Channel<V>, c': Channel<V>, slot: nat)
    requires QueueOk(c)
    requires c'.sh == ReturnFreeSlot(c.sh, slot) && (c'.receiver.Gone? ==> c.receiver.Gone?)
    requires Dropping(c'.receiver) == Dropping(c.receiver)
    requires c'.senders.Keys == c.senders.Keys
    requires forall id :: id in c.senders ==>
                            || c'.senders[id] == c.senders[id]
                            || (c.senders[id].Returning? && (c'.senders[id].Idle? || c'.senders[id].Failed?))
    ensures QueueOk(c')
  {
    ReturnKeepsArrivalOrder(c.sh, slot);
    var ws := c.sh.waiters;
    if ws != [] {
      IdsPop(ws);
      assert LinkOf(c, ws[0]);
      forall w | w in ws[1..] ensures LinkOf(c', w) {
        assert w in ws && LinkOf(c, w);
        assert w.id in Ids(ws[1..]);
      }
    }
    forall id | id in c'.senders ensures SenderQueueOk(c', id) {
      assert SenderQueueOk(c, id);
    }
  }

  /** Steps that change neither the wait queue nor its history: one sender moves to a point that is
      allowed for it, its cell may be taken and `freeq` may shrink. */
  lemma PcKeepsQueue<V>(c: Channel<V>, c': Channel<V>, id: Id)
    requires QueueOk(c)
    requires && c'.sh.waiters == c.sh.waiters && c'.sh.ticket == c.sh.ticket && c'.sh.granted == c.sh.granted
             && c'.sh.receiverDropped == c.sh.receiverDropped && c'.receiver == c.receiver
    requires c.sh.freeq == [] ==> c'.sh.freeq == []
    requires c'.sh.cells == c.sh.cells || c'.sh.cells == c.sh.cells - {id}
    requires forall x :: x in c.sh.cells && x !in c'.sh.cells ==> x == id
    requires forall x :: x != id ==> (x in c'.senders <==> x in c.senders)
    requires forall x :: x != id && x in c.senders ==> c'.senders[x] == c.senders[x]
    requires id in c'.senders ==> SenderQueueOk(c', id)
    requires id in Ids(c.sh.waiters) ==>
               id in c'.senders && (c'.senders[id].Unwinding? || (id in c.senders && c'.senders[id] == c.senders[id]))
    requires id in c'.sh.cells ==> id in c'.senders
    ensures QueueOk(c')
  {
    forall w | w in c.sh.waiters ensures LinkOf(c', w) {
      assert LinkOf(c, w) && w.id in Ids(c.sh.waiters);
    }
    forall x | x in c'.senders ensures SenderQueueOk(c', x) {
      if x != id { assert SenderQueueOk(c, x); }
    }
  }

  /** `push` by the first poll of `send`. */
  lemma PushKeepsQueue<V>(c: Channel<V>, id: Id, waker: Waker, v: V, mark: nat)
    requires QueueOk(c) && id in c.senders && c.senders[id].Started?
    requires c.sh.waiters != [] || c.sh.freeq == []
    requires !c.sh.receiverDropped
    ensures QueueOk(At(c, id, PollSend(c.sh, id, waker, false, false).0, Parked(v, waker, c.sh.ticket, mark)))
  {
    var c' := At(c, id, PollSend(c.sh, id, waker, false, false).0, Parked(v, waker, c.sh.ticket, mark));
    var ws, x := c.sh.waiters, Waiter(id, waker, c.sh.ticket);
    IdsPush(ws, x);
    assert SenderQueueOk(c, id);
    forall w | w in ws ensures LinkOf(c', w) && w.id != id {
      assert LinkOf(c, w);
    }
    assert forall w :: w in ws + [x] <==> w in ws || w == x;
    forall y | y in c'.senders ensures SenderQueueOk(c', y) {
      if y != id { assert SenderQueueOk(c, y); }
    }
    assert forall i :: 0 <= i < |ws| ==> ws[i] in ws;
    assert InOrder(ws + [x]);
  }

  lemma UnlinkKeepsQueue<V>(c: Channel<V>, id: Id, back: Option<V>)
    requires QueueOk(c) && id in c.senders && c.senders[id] == Unwinding(back)
    ensures QueueOk(At(c, id, ChannelCore.Unlink(c.sh, id), Unlinked(back)))
  {
    var c' := At(c, id, ChannelCore.Unlink(c.sh, id), Unlinked(back));
    IdsWithout(c.sh.waiters, id);
    WithoutKeepsOrder(c.sh.waiters, id);
    forall w | w in c'.sh.waiters ensures LinkOf(c', w) {
      assert LinkOf(c, w) && w.id in Ids(c'.sh.waiters);
    }
    forall y | y in c'.senders ensures SenderQueueOk(c', y) {
      assert SenderQueueOk(c, y);
    }
  }

  lemma NotWaiting<V>(c: Channel<V>, id: Id)
    requires QueueOk(c) && (id in c.senders ==> !c.senders[id].Parked? && !c.senders[id].Unwinding?)
    ensures id !in Ids(c.sh.waiters)
  {
  }

  lemma PolledKeepsQueue<V>(c: Channel<V>, id: Id, waker: Waker)
    requires QueueOk(c) && SenderStep(c, id, Poll(waker)).Some?
    ensures QueueOk(SenderStep(c, id, Poll(waker)).value)
  {
    var c' := SenderStep(c, id, Poll(waker)).value;
    assert SenderQueueOk(c, id);
    if c.senders[id].Started? {
      NotWaiting(c, id);
      if c'.senders[id].Parked? {
        PushKeepsQueue(c, id, waker, c.senders[id].v, |c.sh.log|);
      } else {
        PcKeepsQueue(c, c', id);
      }
    } else if id in Ids(c.sh.waiters) {
      if c.sh.receiverDropped { PcKeepsQueue(c, c', id); }
    } else {
      PcKeepsQueue(c, c', id);
    }
  }

  lemma SenderStepQueue<V>(c: Channel<V>, id: Id, a: SenderAction<V>)
    requires QueueOk(c) && SenderStep(c, id, a).Some?
    ensures QueueOk(SenderStep(c, id, a).value)
  {
    var c' := SenderStep(c, id, a).value;
    assert SenderQueueOk(c, id);
    if a.Poll? {
      PolledKeepsQueue(c, id, a.waker);
    } else if a.GiveBack? {
      ReturnKeepsQueue(c, c', c.senders[id].slot);
    } else if a.Unlink? {
      UnlinkKeepsQueue(c, id, c.senders[id].back);
    } else if a.Clone? {
      NotWaiting(c, a.copy);
      PcKeepsQueue(c, c', a.copy);
    } else if a.Cancel? && c.senders[id].Parked? {
      PcKeepsQueue(c, c', id);
    } else {
      MovesNoWaiter(c, id, a);
    }
  }

  /** The steps of a sender that is not on the wait queue, and does not join it. */
  lemma MovesNoWaiter<V>(c: Channel<V>, id: Id, a: SenderAction<V>)
    requires QueueOk(c) && SenderStep(c, id, a).Some?
    requires !a.Poll? && !a.GiveBack? && !a.Unlink? && !a.Clone? && !(a.Cancel? && c.senders[id].Parked?)
    ensures QueueOk(SenderStep(c, id, a).value)
  {
    assert SenderQueueOk(c, id);
    NotWaiting(c, id);
    PcKeepsQueue(c, SenderStep(c, id, a).value, id);
  }

  lemma PopKeepsQueue<V>(c: Channel<V>)
    requires QueueOk(c) && c.receiver.PoppingWaiters?
    ensures QueueOk(ReceiverStep(c, PopWaiter).value)
  {
    var c', ws := ReceiverStep(c, PopWaiter).value, c.sh.waiters;
    if ws != [] {
      FewerWaiters(ws);
      forall w | w in ws[1..] ensures LinkOf(c', w) {
        assert w in ws && LinkOf(c, w);
      }
      forall y | y in c'.senders ensures SenderQueueOk(c', y) {
        assert SenderQueueOk(c, y);
      }
    }
  }

  lemma FewerWaiters(ws: seq<Waiter>)
    requires ws != [] && Distinct(ws) && InOrder(ws)
    ensures Distinct(ws[1..]) && InOrder(ws[1..]) && forall w :: w in ws[1..] ==> w in ws
  {
  }

  lemma ReceiverPcKeepsQueue<V>(c: Channel<V>, c': Channel<V>)
    requires QueueOk(c) && c'.senders == c.senders && c'.sh.cells == c.sh.cells && c'.sh.waiters == c.sh.waiters
    requires c'.sh.freeq == c.sh.freeq && c'.sh.ticket == c.sh.ticket && c'.sh.granted == c.sh.granted
    requires c.sh.receiverDropped ==> c'.sh.receiverDropped
    requires c'.sh.receiverDropped <==> Dropping(c'.receiver)
    requires c'.receiver.Gone? ==> c.receiver.Gone?
    ensures QueueOk(c')
  {
    forall w | w in c.sh.waiters ensures LinkOf(c', w) {
      assert LinkOf(c, w);
    }
    forall y | y in c'.senders ensures SenderQueueOk(c', y) {
      assert SenderQueueOk(c, y);
    }
  }

  lemma ReceiverStepQueue<V>(c: Channel<V>, a: ReceiverAction)
    requires QueueOk(c) && ReceiverStep(c, a).Some?
    ensures QueueOk(ReceiverStep(c, a).value)
  {
    var c' := ReceiverStep(c, a).value;
    if a.HandBack? {
      ReturnKeepsQueue(c, c', c.receiver.slot);
    } else if a.PopWaiter? {
      PopKeepsQueue(c);
    } else {
      ReceiverPcKeepsQueue(c, c');
    }
  }
}
