/** What the channel guarantees in every state of every interleaving. */
module ChannelTheorems {
  import opened Wrappers
  import opened ChannelCore
  import opened ChannelProtocol
  import opened ChannelOwnership
  import opened ChannelQueue
  import opened ChannelDelivery
  import opened ChannelWakeups

  /** What `NoSender` means: the handles are gone, and if they were gone at the pop, so are the messages. */
  ghost predicate ClosedOk<V>(c: Channel<V>) {
    match c.receiver
    case SawEmpty(_, noSender) => noSender ==> c.sh.numSenders == 0 && c.sh.readyq == []
    case SawNoSender(drained) => c.sh.numSenders == 0 && (drained ==> c.sh.readyq == [])
    case _ => true
  }

  ghost predicate Inv<V>(c: Channel<V>) {
    && Owned(c) && QueueOk(c) && SlotsOk(c) && DeliveryOk(c)
    && ReceiverWakeOk(c) && SendersWakeOk(c) && HandlesOk(c) && ClosedOk(c)
    && (c.retired != {} ==> c.sh.receiverDropped)
  }

  lemma NoHandlesNoSteps<V>(c: Channel<V>, id: Id)
    requires HandlesOk(c) && c.sh.numSenders == 0 && id in c.senders
    ensures c.senders[id].DropNotifying?
  {
    assert Handles(c) == {};
    assert id !in Handles(c);
  }

  lemma SplitInv<V>(n: nat)
    ensures Inv<V>(Split(n))
  {
    var c := Split<V>(n);
    var o := seq(n, _ => InFreeq);
    forall i: nat | i < c.n ensures Holds(c, o[i], i) {
      assert c.sh.freeq[i] == i;
    }
    assert OwnedBy(c, o);
    assert Handles(c) == {0};
  }

  lemma NoWaiterHolds<V>(c: Channel<V>)
    requires QueueOk(c)
    ensures WaitersEmptyHanded(c.sh)
  {
    assert forall i :: 0 <= i < |c.sh.waiters| ==> LinkOf(c, c.sh.waiters[i]);
  }

  /** Once the last handle is gone, no step of a sender pushes a message or makes a new handle. */
  lemma SenderStepClosed<V>(c: Channel<V>, id: Id, a: SenderAction<V>)
    requires HandlesOk(c) && ClosedOk(c) && SenderStep(c, id, a).Some?
    requires c.retired != {} ==> c.sh.receiverDropped
    ensures ClosedOk(SenderStep(c, id, a).value)
    ensures SenderStep(c, id, a).value.retired != {} ==> SenderStep(c, id, a).value.sh.receiverDropped
  {
    if c.sh.numSenders == 0 { NoHandlesNoSteps(c, id); }
  }

  lemma ReceiverStepClosed<V>(c: Channel<V>, a: ReceiverAction)
    requires HandlesOk(c) && ClosedOk(c) && QueueOk(c) && ReceiverStep(c, a).Some?
    requires c.retired != {} ==> c.sh.receiverDropped
    ensures HandlesOk(ReceiverStep(c, a).value) && ClosedOk(ReceiverStep(c, a).value)
    ensures ReceiverStep(c, a).value.retired != {} ==> ReceiverStep(c, a).value.sh.receiverDropped
  {
    assert Handles(ReceiverStep(c, a).value) == Handles(c);
  }

  lemma SenderStepInv<V>(c: Channel<V>, id: Id, a: SenderAction<V>)
    requires Inv(c) && SenderStep(c, id, a).Some?
    ensures Inv(SenderStep(c, id, a).value)
  {
    NoWaiterHolds(c);
    SenderStepOwned(c, id, a);
    SenderStepQueue(c, id, a);
    SenderStepSlots(c, id, a);
    SenderStepDelivery(c, id, a);
    SenderStepReceiverWake(c, id, a);
    SenderStepSendersWake(c, id, a);
    SenderStepHandles(c, id, a);
    SenderStepClosed(c, id, a);
  }

  lemma ReceiverStepInv<V>(c: Channel<V>, a: ReceiverAction)
    requires Inv(c) && ReceiverStep(c, a).Some?
    ensures Inv(ReceiverStep(c, a).value)
  {
    NoWaiterHolds(c);
    ReceiverStepOwned(c, a);
    ReceiverStepQueue(c, a);
    ReceiverStepSlots(c, a);
    ReceiverStepDelivery(c, a);
    ReceiverStepReceiverWake(c, a);
    ReceiverStepSendersWake(c, a);
    ReceiverStepClosed(c, a);
  }

  lemma StepKeepsSize<V>(c: Channel<V>, a: Action<V>)
    requires Step(c, a).Some?
    ensures Step(c, a).value.n == c.n
  {
  }

  lemma StepInv<V>(c: Channel<V>, a: Action<V>)
    requires Inv(c) && Step(c, a).Some?
    ensures Inv(Step(c, a).value)
  {
    match a
    case BySender(id, s) => SenderStepInv(c, id, s);
    case ByReceiver(r) => ReceiverStepInv(c, r);
  }

  /** The invariant holds after every interleaving. */
  lemma {:induction false} RunInv<V>(c: Channel<V>, acts: seq<Action<V>>)
    requires Inv(c) && Run(c, acts).Some?
    ensures Inv(Run(c, acts).value) && Run(c, acts).value.n == c.n
    decreases |acts|
  {
    if acts != [] {
      StepInv(c, acts[0]);
      StepKeepsSize(c, acts[0]);
      RunInv(Step(c, acts[0]).value, acts[1..]);
    }
  }

  ghost predicate Reachable<V>(n: nat, acts: seq<Action<V>>, c: Channel<V>) {
    Run(Split(n), acts) == Some(c)
  }

  lemma ReachableInv<V>(n: nat, acts: seq<Action<V>>, c: Channel<V>)
    requires Reachable(n, acts, c)
    ensures Inv(c) && c.n == n
  {
    SplitInv<V>(n);
    RunInv(Split(n), acts);
  }

  lemma UniquePlace<V>(c: Channel<V>, i: nat)
    requires Owned(c) && i < c.n
    ensures exists p :: Holds(c, p, i) && forall q :: Holds(c, q, i) ==> q == p
  {
    var o: seq<Place> :| OwnedBy(c, o);
    assert Holds(c, o[i], i);
    forall q | Holds(c, q, i) ensures q == o[i] {
      match q
      case InHand(id) => assert HandOf(c, id) == Some(i);
      case _ =>
    }
  }

  /** Every slot is in exactly one place, and while the receiver lives none is lost. */
  lemma SlotOwnership<V>(n: nat, acts: seq<Action<V>>, c: Channel<V>, i: nat)
    requires Reachable(n, acts, c) && i < n
    ensures NoDup(c.sh.freeq) && NoDup(c.sh.readyq)
    ensures exists p :: Holds(c, p, i) && forall q :: Holds(c, q, i) ==> q == p
    ensures Holds(c, Retired, i) ==> c.sh.receiverDropped
  {
    ReachableInv(n, acts, c);
    UniquePlace(c, i);
  }

  ghost function Elements(q: seq<nat>): set<nat> {
    set i | i in q
  }

  lemma {:induction false} SizeOfNoDup(q: seq<nat>)
    requires NoDup(q)
    ensures |Elements(q)| == |q|
  {
    if q != [] {
      PopBack(q);
      var b := |q| - 1;
      SizeOfNoDup(q[..b]);
      assert Elements(q) == Elements(q[..b]) + {q[b]};
    }
  }

  lemma {:induction false} SizeBelow(s: set<nat>, n: nat)
    requires forall i :: i in s ==> i < n
    ensures |s| <= n
  {
    if n == 0 {
      assert s == {};
    } else {
      SizeBelow(s - {n - 1}, n - 1);
    }
  }

  lemma {:induction false} SizeAbove(s: set<nat>, n: nat)
    requires forall i: nat :: i < n ==> i in s
    ensures n <= |s|
  {
    if n > 0 { SizeAbove(s - {n - 1}, n - 1); }
  }

  /** A queue that misses slot `slot` has room for it: the unchecked pushes never overflow. */
  lemma RoomFor(q: seq<nat>, slot: nat, n: nat)
    requires NoDup(q) && slot !in q && slot < n && forall i :: i in q ==> i < n
    ensures |q| < n
  {
    PushBack(q, slot);
    SizeOfNoDup(q + [slot]);
    SizeBelow(Elements(q + [slot]), n);
  }

  lemma HeldSlotFits<V>(c: Channel<V>, slot: nat)
    requires Owned(c) && (ReceiverHand(c.receiver) == Some(slot) || exists id :: HandOf(c, id) == Some(slot))
    ensures slot < c.n && |c.sh.freeq| < c.n && |c.sh.readyq| < c.n
  {
    var o: seq<Place> :| OwnedBy(c, o);
    assert slot !in c.sh.freeq && slot !in c.sh.readyq;
    RoomFor(c.sh.freeq, slot, c.n);
    RoomFor(c.sh.readyq, slot, c.n);
  }

  /** Whoever holds a slot index may push it on either queue: `push_back_unchecked` has room. */
  lemma PushesNeverOverflow<V>(n: nat, acts: seq<Action<V>>, c: Channel<V>, slot: nat)
    requires Reachable(n, acts, c)
    requires ReceiverHand(c.receiver) == Some(slot) || exists id :: HandOf(c, id) == Some(slot)
    ensures slot < n && |c.sh.freeq| < n && |c.sh.readyq| < n
  {
    ReachableInv(n, acts, c);
    HeldSlotFits(c, slot);
  }

  /** `ptr::write` always hits a slot that holds no value and `ptr::read` one that does, and the slot
      is the caller's alone (SlotOwnership). */
  lemma SlotAccessIsSafe<V>(n: nat, acts: seq<Action<V>>, c: Channel<V>)
    requires Reachable(n, acts, c)
    ensures forall id :: id in c.senders && c.senders[id].Writing? ==>
                           c.senders[id].slot < |c.slots| && c.slots[c.senders[id].slot] == Uninit
    ensures c.receiver.Reading? || c.receiver.DrainReading? ==>
              c.receiver.slot < |c.slots| && c.slots[c.receiver.slot].Init?
  {
    ReachableInv(n, acts, c);
    assert forall id :: id in c.senders ==> SenderSlotOk(c, id);
  }

  lemma AllFree<V>(c: Channel<V>)
    requires Owned(c) && QueueOk(c) && c.retired == {}
    requires forall id :: id in c.senders ==> c.senders[id].Idle? || c.senders[id].DropNotifying?
    requires ReceiverHand(c.receiver) == None && c.sh.readyq == []
    ensures forall i: nat :: i < c.n ==> i in c.sh.freeq
  {
    var o: seq<Place> :| OwnedBy(c, o);
    forall i: nat | i < c.n ensures i in c.sh.freeq {
      assert Holds(c, o[i], i);
      if o[i].InCell? { assert SenderQueueOk(c, o[i].id); }
    }
  }

  /** No slot leaks: when no call is in progress and no message is queued, all `n` slots are free,
      whatever was sent, cancelled or dropped before. */
  lemma IdleChannelHasAllSlots<V>(n: nat, acts: seq<Action<V>>, c: Channel<V>)
    requires Reachable(n, acts, c) && !c.sh.receiverDropped
    requires forall id :: id in c.senders ==> c.senders[id].Idle? || c.senders[id].DropNotifying?
    requires ReceiverHand(c.receiver) == None && c.sh.readyq == []
    ensures |c.sh.freeq| == n && forall i: nat :: i < n ==> i in c.sh.freeq
  {
    ReachableInv(n, acts, c);
    AllFree(c);
    SizeOfNoDup(c.sh.freeq);
    SizeAbove(Elements(c.sh.freeq), n);
    SizeBelow(Elements(c.sh.freeq), n);
  }

  /** The values read so far are the first ones committed, and while the receiver lives the committed rest is
      exactly what the popped slot and the ready queue hold, in that order. */
  lemma DeliveredInCommitOrder<V>(n: nat, acts: seq<Action<V>>, c: Channel<V>)
    requires Reachable(n, acts, c)
    ensures c.received <= c.sent
    ensures !c.sh.receiverDropped ==>
              var q := Outstanding(c.receiver, c.sh.readyq);
              && |c.sent| == |c.received| + |q|
              && forall k :: 0 <= k < |q| ==> q[k] < |c.slots| && c.slots[q[k]] == Init(c.sent[|c.received| + k])
  {
    ReachableInv(n, acts, c);
  }

  /** Nobody overtakes a waiter: a slot comes out of `freeq` only when the wait queue is empty, waiters are
      served in arrival order, and somebody is left waiting only while no slot is free. */
  lemma NoOvertaking<V>(n: nat, acts: seq<Action<V>>, c: Channel<V>, id: Id, a: SenderAction<V>)
    requires Reachable(n, acts, c) && SenderStep(c, id, a).Some?
    ensures |SenderStep(c, id, a).value.sh.freeq| < |c.sh.freeq| ==> c.sh.waiters == []
    ensures c.sh.waiters != [] ==> c.sh.freeq == []
    ensures forall i, j :: 0 <= i < j < |c.sh.granted| ==> c.sh.granted[i] < c.sh.granted[j]
    ensures forall i, w :: 0 <= i < |c.sh.granted| && w in c.sh.waiters ==> c.sh.granted[i] < w.ticket
  {
    ReachableInv(n, acts, c);
  }

  /** No lost wake-up of the receiver: a `recv` that returned `Pending` although there is a message, or no
      sender left, has been woken since it registered, or its waker is still stored and some sender is
      between its push (the last decrement) and its `wake()`. */
  lemma NoLostReceiverWakeup<V>(n: nat, acts: seq<Action<V>>, c: Channel<V>, reg: Reg)
    requires Reachable(n, acts, c) && c.receiver == Waiting(reg)
    ensures c.sh.readyq != [] ==>
              || Woken(c.sh.log, reg.waker, reg.mark)
              || (c.sh.receiverWaker == Some(reg.waker) && exists id :: id in c.senders && c.senders[id].Notifying?)
    ensures c.sh.numSenders == 0 ==>
              || Woken(c.sh.log, reg.waker, reg.mark)
              || (c.sh.receiverWaker == Some(reg.waker) && exists id :: id in c.senders && c.senders[id].DropNotifying?)
  {
    ReachableInv(n, acts, c);
  }

  /** No lost wake-up of a sender: a parked `send` that has left the wait queue has been woken since it parked, unless
      the dropping receiver has just unlinked it and calls its waker next.  One that is still on the queue has no slot
      to take; its next poll would be ready only because `Receiver::drop` has begun, which will still come to it. */
  lemma NoLostSenderWakeup<V>(n: nat, acts: seq<Action<V>>, c: Channel<V>, id: Id)
    requires Reachable(n, acts, c) && id in c.senders && c.senders[id].Parked?
    ensures var pc := c.senders[id];
            && (id !in Ids(c.sh.waiters) ==>
                  Woken(c.sh.log, pc.waker, pc.mark) || c.receiver == WakingWaiter(pc.waker))
            && (id in Ids(c.sh.waiters) ==>
                  && c.sh.freeq == [] && id !in c.sh.cells
                  && (c.sh.receiverDropped ==> Dropping(c.receiver) && !c.receiver.Gone?))
            && (c.receiver.Gone? ==> Woken(c.sh.log, pc.waker, pc.mark))
  {
    ReachableInv(n, acts, c);
    assert ParkedWakeOk(c, id);
    if id in Ids(c.sh.waiters) {
      var w :| w in c.sh.waiters && w.id == id;
      assert LinkOf(c, w);
    }
  }

  // ----- `Receiver::drop` ends

  function Drained<V>(acts: seq<Action<V>>): nat {
    if acts == [] then 0 else Drained(acts[1..]) + if acts[0] == ByReceiver(DrainRead) then 1 else 0
  }

  /** A slot that is drained was not retired before. */
  lemma DrainRetires<V>(c: Channel<V>, a: Action<V>)
    requires Owned(c) && Step(c, a).Some?
    ensures |Step(c, a).value.retired| == |c.retired| + if a == ByReceiver(DrainRead) then 1 else 0
  {
    match a
    case BySender(id, s) => SendersRetireNone(c, id, s);
    case ByReceiver(r) => if r.DrainRead? { DrainedIsNew(c); } else { ReceiverRetiresNone(c, r); }
  }

  lemma ReceiverRetiresNone<V>(c: Channel<V>, a: ReceiverAction)
    requires ReceiverStep(c, a).Some? && !a.DrainRead?
    ensures ReceiverStep(c, a).value.retired == c.retired
  {
  }

  lemma SendersRetireNone<V>(c: Channel<V>, id: Id, a: SenderAction<V>)
    requires SenderStep(c, id, a).Some?
    ensures SenderStep(c, id, a).value.retired == c.retired
  {
  }

  lemma DrainedIsNew<V>(c: Channel<V>)
    requires Owned(c) && ReceiverHand(c.receiver).Some?
    ensures ReceiverHand(c.receiver).value !in c.retired
  {
    var o: seq<Place> :| OwnedBy(c, o);
    var slot := ReceiverHand(c.receiver).value;
    assert Holds(c, AtReceiver, slot);
  }

  lemma {:induction false} RunRetires<V>(c: Channel<V>, acts: seq<Action<V>>)
    requires Inv(c) && Run(c, acts).Some?
    ensures |Run(c, acts).value.retired| == |c.retired| + Drained(acts)
    decreases |acts|
  {
    if acts != [] {
      DrainRetires(c, acts[0]);
      StepInv(c, acts[0]);
      RunRetires(Step(c, acts[0]).value, acts[1..]);
    }
  }

  /** The first loop of `Receiver::drop` has at most `n` rounds in any run: drained slots do not come back. */
  lemma DrainEnds<V>(n: nat, acts: seq<Action<V>>, c: Channel<V>)
    requires Reachable(n, acts, c)
    ensures Drained(acts) <= n
  {
    ReachableInv(n, acts, c);
    SplitInv<V>(n);
    RunRetires(Split<V>(n), acts);
    var o: seq<Place> :| OwnedBy(c, o);
    SizeBelow(c.retired, n);
  }

  function WaitersWoken<V>(acts: seq<Action<V>>): nat {
    if acts == [] then 0 else WaitersWoken(acts[1..]) + if acts[0] == ByReceiver(WakeWaiter) then 1 else 0
  }

  /** The waiters that the second loop has still to wake. */
  function ToWake<V>(c: Channel<V>): nat {
    |c.sh.waiters| + if c.receiver.WakingWaiter? then 1 else 0
  }

  lemma WakingShrinks<V>(c: Channel<V>, a: Action<V>)
    requires c.sh.receiverDropped && Step(c, a).Some?
    ensures Step(c, a).value.sh.receiverDropped
    ensures ToWake(Step(c, a).value) + (if a == ByReceiver(WakeWaiter) then 1 else 0) <= ToWake(c)
  {
    match a
    case BySender(id, s) => NobodyJoins(c, id, s);
    case ByReceiver(_) =>
  }

  lemma NobodyJoins<V>(c: Channel<V>, id: Id, a: SenderAction<V>)
    requires c.sh.receiverDropped && SenderStep(c, id, a).Some?
    ensures var d := SenderStep(c, id, a).value;
            d.sh.receiverDropped && d.receiver == c.receiver && |d.sh.waiters| <= |c.sh.waiters|
  {
  }

  /** The second loop wakes no more than the senders that wait: nobody joins them once the receiver is dropped. */
  lemma {:induction false} WakingEnds<V>(c: Channel<V>, acts: seq<Action<V>>)
    requires c.sh.receiverDropped && Run(c, acts).Some?
    ensures WaitersWoken(acts) + ToWake(Run(c, acts).value) <= ToWake(c)
    decreases |acts|
  {
    if acts != [] {
      WakingShrinks(c, acts[0]);
      WakingEnds(Step(c, acts[0]).value, acts[1..]);
    }
  }

  lemma GoneStays<V>(c: Channel<V>, acts: seq<Action<V>>)
    requires c.receiver.Gone? && Run(c, acts).Some?
    ensures Run(c, acts).value.receiver.Gone?
    decreases |acts|
  {
    if acts != [] { GoneStays(Step(c, acts[0]).value, acts[1..]); }
  }

  /** Once `Receiver::drop` has finished, nobody waits in any later state `d`, everyone who was
      waiting has been woken, and every poll of a pending `send` fails. */
  lemma NobodyWaitsAfterDrop<V>(n: nat, acts: seq<Action<V>>, c: Channel<V>, later: seq<Action<V>>, d: Channel<V>)
    requires Reachable(n, acts, c) && c.receiver.Gone? && Run(c, later) == Some(d)
    ensures d.sh.waiters == []
    ensures forall id :: id in d.senders && d.senders[id].Parked? ==>
                           Woken(d.sh.log, d.senders[id].waker, d.senders[id].mark)
    ensures forall id, w :: id in d.senders && d.senders[id].Parked? ==>
                              SenderStep(d, id, Poll(w)) == Some(At(d, id, d.sh, Unwinding(Some(d.senders[id].v))))
  {
    ReachableInv(n, acts, c);
    RunInv(c, later);
    GoneStays(c, later);
    assert forall id :: id in d.senders ==> ParkedWakeOk(d, id);
  }

  /** A poll of `send` fails exactly when the receiver has been dropped. */
  lemma SendFailsIffReceiverDropped<V>(n: nat, acts: seq<Action<V>>, c: Channel<V>, id: Id, waker: Waker)
    requires Reachable(n, acts, c) && SenderStep(c, id, Poll(waker)).Some?
    ensures var pc := SenderStep(c, id, Poll(waker)).value.senders[id];
            ((pc.Unwinding? || pc.Unlinked?) && pc.back == Some(c.senders[id].v)) <==> c.sh.receiverDropped
  {
    ReachableInv(n, acts, c);
    assert SenderQueueOk(c, id);
  }

  /** `NoSender` is only reported once every handle is dropped; if the handles were already gone when
      `try_recv` popped, nothing is left to receive. */
  lemma NoSenderMeansNoHandles<V>(n: nat, acts: seq<Action<V>>, c: Channel<V>)
    requires Reachable(n, acts, c) && c.receiver.SawNoSender?
    ensures forall id :: id in c.senders ==> c.senders[id].DropNotifying?
    ensures c.receiver.drained ==> c.sh.readyq == []
  {
    ReachableInv(n, acts, c);
    forall id | id in c.senders ensures c.senders[id].DropNotifying? {
      NoHandlesNoSteps(c, id);
    }
  }

  // ----- Steps in a row

  lemma Three<V>(c: Channel<V>, c2: Channel<V>, c3: Channel<V>, d: Channel<V>, acts: seq<Action<V>>)
    requires |acts| == 3
    requires Step(c, acts[0]) == Some(c2) && Step(c2, acts[1]) == Some(c3) && Step(c3, acts[2]) == Some(d)
    ensures Run(c, acts) == Some(d)
  {
    var rest := acts[1..];
    assert rest[1..] == [acts[2]] && [acts[2]][1..] == [];
    assert Run(d, []) == Some(d);
    assert Run(c3, [acts[2]]) == Some(d);
    assert Run(c2, rest) == Some(d);
  }

  /** An uninterrupted `try_send` up to the point where it holds a slot. */
  lemma TrySendTakes<V>(c: Channel<V>, id: Id, v: V) returns (d: Channel<V>)
    requires id in c.senders && c.senders[id].Idle? && c.sh.waiters == [] && !c.sh.receiverDropped && c.sh.freeq != []
    ensures Run(c, [BySender(id, TrySend(v)), BySender(id, TryCheckOpen), BySender(id, TryTake)]) == Some(d)
    ensures d == At(c, id, TakeFree(c.sh).0, Writing(v, c.sh.freeq[0]))
  {
    var acts := [BySender(id, TrySend(v)), BySender(id, TryCheckOpen), BySender(id, TryTake)];
    var c2 := SenderStep(c, id, TrySend(v)).value;
    var c3 := SenderStep(c2, id, TryCheckOpen).value;
    d := SenderStep(c3, id, TryTake).value;
    Three(c, c2, c3, d, acts);
    assert d.senders == c.senders[id := Writing(v, c.sh.freeq[0])];
  }

  /** An uninterrupted `send_footer`. */
  lemma FooterCommits<V>(c: Channel<V>, id: Id, v: V) returns (d: Channel<V>)
    requires id in c.senders && c.senders[id].Writing? && c.senders[id].v == v && c.senders[id].slot < |c.slots|
    ensures Run(c, [BySender(id, Write), BySender(id, Push), BySender(id, Wake)]) == Some(d)
    ensures d == At(c, id, ChannelCore.WakeReceiver(ChannelCore.PushReady(c.sh, c.senders[id].slot)), Idle).(
                   slots := c.slots[c.senders[id].slot := Init(v)], sent := c.sent + [v])
  {
    var acts: seq<Action<V>> := [BySender(id, Write), BySender(id, Push), BySender(id, Wake)];
    var c2 := SenderStep(c, id, Write).value;
    var c3 := SenderStep(c2, id, Push).value;
    d := SenderStep(c3, id, Wake).value;
    Three(c, c2, c3, d, acts);
    assert d.senders == c.senders[id := Idle];
  }

  /** The run that takes `a` first. */
  lemma RunOf<V>(c: Channel<V>, a: Action<V>, rest: seq<Action<V>>)
    requires Step(c, a).Some?
    ensures Run(c, [a] + rest) == Run(Step(c, a).value, rest)
  {
    var acts := [a] + rest;
    assert acts[0] == a && acts[1..] == rest;
  }

  lemma {:induction false} RunJoins<V>(c: Channel<V>, xs: seq<Action<V>>, m: Channel<V>, ys: seq<Action<V>>,
                                       d: Channel<V>)
    requires Run(c, xs) == Some(m) && Run(m, ys) == Some(d)
    ensures Run(c, xs + ys) == Some(d)
    decreases |xs|
  {
    if xs == [] {
      assert xs + ys == ys;
    } else {
      RunJoins(Step(c, xs[0]).value, xs[1..], m, ys, d);
      JoinFirst(c, xs, ys);
    }
  }

  lemma JoinFirst<V>(c: Channel<V>, xs: seq<Action<V>>, ys: seq<Action<V>>)
    requires xs != [] && Step(c, xs[0]).Some?
    ensures Run(c, xs + ys) == Run(Step(c, xs[0]).value, xs[1..] + ys)
  {
    RunOf(c, xs[0], xs[1..] + ys);
    FirstOfJoined(xs, ys);
  }
}
