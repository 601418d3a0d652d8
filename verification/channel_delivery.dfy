/** Slot contents and delivery order. */
module ChannelDelivery {
  import opened Wrappers
  import opened ChannelCore
  import opened ChannelProtocol
  import opened ChannelOwnership

  /** Exactly the slots between a `ptr::write` and the matching `ptr::read` hold a value. */
  ghost predicate SenderSlotOk<V>(c: Channel<V>, id: Id)
    requires id in c.senders
  {
    match c.senders[id]
    case Writing(_, slot) => slot < |c.slots| && c.slots[slot] == Uninit
    case Returning(slot, _) => slot < |c.slots| && c.slots[slot] == Uninit
    case Written(v, slot) => slot < |c.slots| && c.slots[slot] == Init(v)
    case _ => true
  }

  ghost predicate AllFull<V>(c: Channel<V>, q: seq<nat>) {
    forall k :: 0 <= k < |q| ==> q[k] < |c.slots| && c.slots[q[k]].Init?
  }

  ghost predicate ReceiverSlotOk<V>(c: Channel<V>) {
    match c.receiver
    case Reading(slot) => slot < |c.slots| && c.slots[slot].Init?
    case DrainReading(slot) => slot < |c.slots| && c.slots[slot].Init?
    case HandingBack(slot) => slot < |c.slots| && c.slots[slot] == Uninit
    case _ => true
  }

  ghost predicate SlotsOk<V>(c: Channel<V>) {
    && (forall k :: 0 <= k < |c.sh.freeq| ==> c.sh.freeq[k] < |c.slots| && c.slots[c.sh.freeq[k]] == Uninit)
    && (forall id :: id in c.sh.cells ==> c.sh.cells[id] < |c.slots| && c.slots[c.sh.cells[id]] == Uninit)
    && AllFull(c, c.sh.readyq)
    && (forall id :: id in c.senders ==> SenderSlotOk(c, id))
    && ReceiverSlotOk(c)
  }

  /** The values committed and not yet read: first the one the receiver has popped, then the ready queue. */
  ghost function Outstanding(c: ReceiverPc, readyq: seq<nat>): seq<nat> {
    if c.Reading? then [c.slot] + readyq else readyq
  }

  ghost predicate Carries<V>(slots: seq<Slot<V>>, q: seq<nat>, vs: seq<V>) {
    && |q| == |vs|
    && forall k :: 0 <= k < |q| ==> q[k] < |slots| && slots[q[k]] == Init(vs[k])
  }

  /** While the receiver lives, `received` followed by the outstanding slots' contents is `sent`. */
  ghost predicate DeliveryOk<V>(c: Channel<V>) {
    && c.received <= c.sent
    && (!c.sh.receiverDropped ==>
          Carries(c.slots, Outstanding(c.receiver, c.sh.readyq), c.sent[|c.received|..]))
  }

  lemma WriteKeepsSlots<V>(c: Channel<V>, id: Id)
    requires Owned(c) && SlotsOk(c) && SenderStep(c, id, Write).Some?
    ensures SlotsOk(SenderStep(c, id, Write).value)
  {
    var c' := SenderStep(c, id, Write).value;
    var o :| OwnedBy(c, o);
    var slot := c.senders[id].slot;
    assert HandOf(c, id) == Some(slot);
    forall x | x in c'.senders ensures SenderSlotOk(c', x) {
      assert SenderSlotOk(c, x);
      if x != id && HandOf(c, x).Some? { assert o[HandOf(c, x).value] == InHand(x); }
    }
    forall k | 0 <= k < |c.sh.freeq| ensures c.sh.freeq[k] != slot {
      assert c.sh.freeq[k] in c.sh.freeq;
    }
    forall k | 0 <= k < |c.sh.readyq| ensures c.sh.readyq[k] != slot {
      assert c.sh.readyq[k] in c.sh.readyq;
    }
  }

  /** `return_free_slot`: the slot comes from the sender `id` or the receiver, which then holds none. */
  lemma ReturnKeepsSlots<V>(c: Channel<V>, c': Channel<V>, slot: nat)
    requires SlotsOk(c) && c'.slots == c.slots && slot < |c.slots| && c.slots[slot] == Uninit
    requires c'.sh == ReturnFreeSlot(c.sh, slot) && c'.senders.Keys == c.senders.Keys
    requires forall x :: x in c.senders ==>
                           c'.senders[x] == c.senders[x] || c'.senders[x].Idle? || c'.senders[x].Failed?
    requires c'.receiver == c.receiver || c'.receiver.Ready?
    ensures SlotsOk(c')
  {
    forall x | x in c'.senders ensures SenderSlotOk(c', x) {
      assert SenderSlotOk(c, x);
    }
  }

  /** Steps that access no slot and return none: at most sender `id` and the receiver move on. */
  lemma MoveKeepsSlots<V>(c: Channel<V>, c': Channel<V>, id: Id)
    requires SlotsOk(c) && c'.slots == c.slots
    requires forall k :: 0 <= k < |c'.sh.freeq| ==> c'.sh.freeq[k] in c.sh.freeq
    requires forall x :: x in c'.sh.cells ==> x in c.sh.cells && c'.sh.cells[x] == c.sh.cells[x]
    requires AllFull(c', c'.sh.readyq) && ReceiverSlotOk(c')
    requires forall x :: x in c'.senders && x != id ==> x in c.senders && c'.senders[x] == c.senders[x]
    requires id in c'.senders ==> SenderSlotOk(c', id)
    ensures SlotsOk(c')
  {
    forall x | x in c'.senders ensures SenderSlotOk(c', x) {
      if x != id { assert SenderSlotOk(c, x); }
    }
  }

  lemma SendersKeepSlots<V>(c: Channel<V>, c': Channel<V>)
    requires SlotsOk(c) && c'.slots == c.slots && c'.senders == c.senders
    requires c'.sh.freeq == c.sh.freeq && c'.sh.cells == c.sh.cells
    requires forall k :: 0 <= k < |c'.sh.readyq| ==> c'.sh.readyq[k] in c.sh.readyq
    requires ReceiverSlotOk(c')
    ensures SlotsOk(c')
  {
    forall x | x in c'.senders ensures SenderSlotOk(c', x) {
      assert SenderSlotOk(c, x);
    }
  }

  lemma PollKeepsSlots<V>(c: Channel<V>, id: Id, waker: Waker)
    requires SlotsOk(c) && SenderStep(c, id, Poll(waker)).Some?
    ensures SlotsOk(SenderStep(c, id, Poll(waker)).value)
  {
    MoveKeepsSlots(c, SenderStep(c, id, Poll(waker)).value, id);
  }

  lemma GiveBackKeepsSlots<V>(c: Channel<V>, id: Id)
    requires SlotsOk(c) && SenderStep(c, id, GiveBack).Some?
    ensures SlotsOk(SenderStep(c, id, GiveBack).value)
  {
    assert SenderSlotOk(c, id);
    ReturnKeepsSlots(c, SenderStep(c, id, GiveBack).value, c.senders[id].slot);
  }

  lemma SenderStepSlots<V>(c: Channel<V>, id: Id, a: SenderAction<V>)
    requires Owned(c) && SlotsOk(c) && SenderStep(c, id, a).Some?
    ensures SlotsOk(SenderStep(c, id, a).value)
  {
    if a.Write? {
      WriteKeepsSlots(c, id);
    } else if a.Poll? {
      PollKeepsSlots(c, id, a.waker);
    } else if a.GiveBack? {
      GiveBackKeepsSlots(c, id);
    } else {
      assert SenderSlotOk(c, id);
      MoveKeepsSlots(c, SenderStep(c, id, a).value, if a.Clone? then a.copy else id);
    }
  }

  /** `ptr::read` by the receiver empties the one slot it holds. */
  lemma ReadKeepsSlots<V>(c: Channel<V>, a: ReceiverAction)
    requires a.Read? || a.DrainRead?
    requires Owned(c) && SlotsOk(c) && ReceiverStep(c, a).Some?
    ensures SlotsOk(ReceiverStep(c, a).value)
  {
    var c' := ReceiverStep(c, a).value;
    var o :| OwnedBy(c, o);
    var slot := c.receiver.slot;
    assert ReceiverHand(c.receiver) == Some(slot);
    forall x | x in c'.senders ensures SenderSlotOk(c', x) {
      assert SenderSlotOk(c, x);
      if HandOf(c, x).Some? { assert o[HandOf(c, x).value] == InHand(x); }
    }
    forall k | 0 <= k < |c.sh.freeq| ensures c.sh.freeq[k] != slot {
      assert c.sh.freeq[k] in c.sh.freeq;
    }
    forall k | 0 <= k < |c.sh.readyq| ensures c.sh.readyq[k] != slot {
      assert c.sh.readyq[k] in c.sh.readyq;
    }
  }

  lemma ReceiverStepSlots<V>(c: Channel<V>, a: ReceiverAction)
    requires Owned(c) && SlotsOk(c) && ReceiverStep(c, a).Some?
    ensures SlotsOk(ReceiverStep(c, a).value)
  {
    if a.Read? || a.DrainRead? {
      ReadKeepsSlots(c, a);
    } else if a.HandBack? {
      ReturnKeepsSlots(c, ReceiverStep(c, a).value, c.receiver.slot);
    } else {
      SendersKeepSlots(c, ReceiverStep(c, a).value);
    }
  }

  lemma WriteKeepsDelivery<V>(c: Channel<V>, id: Id, c': Channel<V>)
    requires Owned(c) && SlotsOk(c) && DeliveryOk(c) && SenderStep(c, id, Write) == Some(c')
    ensures DeliveryOk(c')
  {
    var q := Outstanding(c.receiver, c.sh.readyq);
    var o :| OwnedBy(c, o);
    var slot := c.senders[id].slot;
    assert HandOf(c, id) == Some(slot);
    forall k | 0 <= k < |q| ensures q[k] != slot {
      assert q[k] in c.sh.readyq || ReceiverHand(c.receiver) == Some(q[k]);
    }
  }

  lemma PushKeepsDelivery<V>(c: Channel<V>, id: Id, c': Channel<V>)
    requires SlotsOk(c) && DeliveryOk(c) && SenderStep(c, id, Push) == Some(c')
    ensures DeliveryOk(c')
  {
    assert SenderSlotOk(c, id);
    var q := Outstanding(c.receiver, c.sh.readyq);
    assert Outstanding(c.receiver, c'.sh.readyq) == q + [c.senders[id].slot];
    assert c'.sent[|c.received|..] == c.sent[|c.received|..] + [c.senders[id].v];
  }

  lemma SenderStepDelivery<V>(c: Channel<V>, id: Id, a: SenderAction<V>)
    requires Owned(c) && SlotsOk(c) && DeliveryOk(c) && SenderStep(c, id, a).Some?
    ensures DeliveryOk(SenderStep(c, id, a).value)
  {
    var c' := SenderStep(c, id, a).value;
    if a.Write? {
      WriteKeepsDelivery(c, id, c');
    } else if a.Push? {
      PushKeepsDelivery(c, id, c');
    }
  }

  lemma ReceiverStepDelivery<V>(c: Channel<V>, a: ReceiverAction)
    requires Owned(c) && SlotsOk(c) && DeliveryOk(c) && ReceiverStep(c, a).Some?
    requires c.sh.receiverDropped || !(c.receiver.Draining? || c.receiver.DrainReading?)
    requires c.receiver.Reading? ==> !c.sh.receiverDropped
    ensures DeliveryOk(ReceiverStep(c, a).value)
  {
    var c' := ReceiverStep(c, a).value;
    if a.Pop? && c.sh.readyq != [] {
      assert Outstanding(c'.receiver, c'.sh.readyq) == c.sh.readyq;
    } else if a.Read? {
      ReadDelivers(c, c');
    }
  }

  lemma ReadDelivers<V>(c: Channel<V>, c': Channel<V>)
    requires Owned(c) && SlotsOk(c) && DeliveryOk(c) && ReceiverStep(c, Read) == Some(c') && !c.sh.receiverDropped
    ensures DeliveryOk(c')
  {
    var o :| OwnedBy(c, o);
    var slot := c.receiver.slot;
    assert ReceiverHand(c.receiver) == Some(slot);
    var q := c.sh.readyq;
    assert Outstanding(c.receiver, q)[0] == slot;
    assert c.sent[|c.received|..][0] == c.sent[|c.received|];
    forall k | 0 <= k < |q| ensures c'.slots[q[k]] == Init(c.sent[|c.received| + 1..][k]) {
      assert q[k] in q && Outstanding(c.receiver, q)[k + 1] == q[k];
    }
  }
}
