/** No lost wake-ups, for the receiver and for waiting senders, and the count of sender handles. */
module ChannelWakeups {
  import opened Wrappers
  import opened ChannelCore
  import opened ChannelProtocol
  import opened ChannelQueue

  /** The waker has been called since the log had length `mark`. */
  ghost predicate Woken(log: seq<Waker>, waker: Waker, mark: nat) {
    mark <= |log| && waker in log[mark..]
  }

  ghost predicate SomeNotifying<V>(c: Channel<V>) {
    exists id :: id in c.senders && c.senders[id].Notifying?
  }

  ghost predicate SomeDropNotifying<V>(c: Channel<V>) {
    exists id :: id in c.senders && c.senders[id].DropNotifying?
  }

  /** The waker of the latest poll is stored, and whatever made the channel ready has a `wake()` on its way. */
  ghost predicate WakeDue<V>(c: Channel<V>, waker: Waker, messages: bool, closed: bool) {
    && c.sh.receiverWaker == Some(waker)
    && (messages && c.sh.readyq != [] ==> SomeNotifying(c))
    && (closed && c.sh.numSenders == 0 ==> SomeDropNotifying(c))
  }

  ghost predicate RecvOk<V>(c: Channel<V>, reg: Reg, messages: bool, closed: bool) {
    && reg.mark <= |c.sh.log|
    && (Woken(c.sh.log, reg.waker, reg.mark) || WakeDue(c, reg.waker, messages, closed))
  }

  ghost predicate ReceiverWakeOk<V>(c: Channel<V>) {
    match c.receiver
    case Registered(reg) => RecvOk(c, reg, false, false)
    case SawEmpty(Some(reg), _) => RecvOk(c, reg, true, false)
    case Waiting(reg) => RecvOk(c, reg, true, true)
    case _ => true
  }

  /** A parked sender that was taken off the wait queue has been woken, or the dropping receiver is about to. */
  ghost predicate ParkedWakeOk<V>(c: Channel<V>, id: Id)
    requires id in c.senders
  {
    c.senders[id].Parked? ==>
      var pc := c.senders[id];
      && pc.mark <= |c.sh.log|
      && (|| id in Ids(c.sh.waiters)
          || Woken(c.sh.log, pc.waker, pc.mark)
          || c.receiver == WakingWaiter(pc.waker))
  }

  ghost predicate SendersWakeOk<V>(c: Channel<V>) {
    forall id :: id in c.senders ==> ParkedWakeOk(c, id)
  }

  /** The handles that have not been dropped. */
  ghost function Handles<V>(c: Channel<V>): set<Id> {
    set id | id in c.senders && !c.senders[id].DropNotifying?
  }

  ghost predicate HandlesOk<V>(c: Channel<V>) {
    c.sh.numSenders == |Handles(c)|
  }

  lemma LogGrows(log: seq<Waker>, more: seq<Waker>, waker: Waker, mark: nat)
    requires mark <= |log|
    ensures Woken(log, waker, mark) ==> Woken(log + more, waker, mark)
    ensures waker in more ==> Woken(log + more, waker, mark)
  {
    assert (log + more)[mark..] == log[mark..] + more;
  }

  function PollOf(pc: ReceiverPc): Option<Reg> {
    match pc
    case Registered(reg) => Some(reg)
    case SawEmpty(poll, _) => poll
    case Waiting(reg) => Some(reg)
    case _ => None
  }

  /** A call of `receiver_waker.wake()`. */
  lemma WakeReachesReceiver<V>(c: Channel<V>, c': Channel<V>)
    requires ReceiverWakeOk(c) && c'.receiver == c.receiver && c'.sh == WakeReceiver(c.sh)
    ensures ReceiverWakeOk(c')
  {
    match PollOf(c.receiver) {
      case Some(reg) =>
        var more := if c.sh.receiverWaker.Some? then [c.sh.receiverWaker.value] else [];
        assert c'.sh.log == c.sh.log + more;
        LogGrows(c.sh.log, more, reg.waker, reg.mark);
      case None =>
    }
  }

  /** Any other step of a sender: it announces a wake-up for every message and for the last handle. */
  lemma DueStaysDue<V>(c: Channel<V>, c': Channel<V>, id: Id)
    requires ReceiverWakeOk(c) && c'.receiver == c.receiver && c'.sh.receiverWaker == c.sh.receiverWaker
    requires c.sh.log <= c'.sh.log
    requires id in c.senders && !c.senders[id].Notifying? && !c.senders[id].DropNotifying?
    requires forall x :: x in c.senders && x != id ==> x in c'.senders && c'.senders[x] == c.senders[x]
    requires c'.sh.readyq == c.sh.readyq || (id in c'.senders && c'.senders[id].Notifying?)
    requires c'.sh.numSenders == 0 ==> c.sh.numSenders == 0 || (id in c'.senders && c'.senders[id].DropNotifying?)
    ensures ReceiverWakeOk(c')
  {
    match PollOf(c.receiver) {
      case Some(reg) =>
        assert c'.sh.log == c.sh.log + c'.sh.log[|c.sh.log|..];
        LogGrows(c.sh.log, c'.sh.log[|c.sh.log|..], reg.waker, reg.mark);
        if SomeNotifying(c) {
          var x :| x in c.senders && c.senders[x].Notifying?;
          assert x in c'.senders && c'.senders[x].Notifying?;
        }
        if SomeDropNotifying(c) {
          var x :| x in c.senders && c.senders[x].DropNotifying?;
          assert x in c'.senders && c'.senders[x].DropNotifying?;
        }
      case None =>
    }
  }

  lemma SenderStepReceiverWake<V>(c: Channel<V>, id: Id, a: SenderAction<V>)
    requires ReceiverWakeOk(c) && SenderStep(c, id, a).Some?
    ensures ReceiverWakeOk(SenderStep(c, id, a).value)
  {
    var c' := SenderStep(c, id, a).value;
    if a.Wake? || a.DropWake? {
      WakeReachesReceiver(c, c');
    } else if !(a.TrySend? && c' == c) {
      DueStaysDue(c, c', id);
    }
  }

  lemma ReceiverStepReceiverWake<V>(c: Channel<V>, a: ReceiverAction)
    requires ReceiverWakeOk(c) && ReceiverStep(c, a).Some?
    ensures ReceiverWakeOk(ReceiverStep(c, a).value)
  {
  }

  /** Steps that may add wake-ups and take waiters off the queue, but only with a wake-up or an `Unlink` by the
      owner. */
  lemma ParkedStayCovered<V>(c: Channel<V>, c': Channel<V>, own: set<Id>)
    requires SendersWakeOk(c) && QueueOk(c) && c.sh.log <= c'.sh.log
    requires forall x :: x in c'.senders && x !in own && c'.senders[x].Parked? ==>
                           x in c.senders && c'.senders[x] == c.senders[x]
    requires forall x :: x in own && x in c'.senders ==> ParkedWakeOk(c', x)
    requires forall w :: w in c.sh.waiters && w.id !in own ==>
                           || w.id in Ids(c'.sh.waiters)
                           || w.waker in c'.sh.log[|c.sh.log|..]
                           || c'.receiver == WakingWaiter(w.waker)
    requires c.receiver.WakingWaiter? ==>
               c'.receiver == c.receiver || c.receiver.waker in c'.sh.log[|c.sh.log|..]
    ensures SendersWakeOk(c')
  {
    var more := c'.sh.log[|c.sh.log|..];
    assert c'.sh.log == c.sh.log + more;
    forall x | x in c'.senders ensures ParkedWakeOk(c', x) {
      if x !in own && c'.senders[x].Parked? {
        assert ParkedWakeOk(c, x);
        LogGrows(c.sh.log, more, c.senders[x].waker, c.senders[x].mark);
        if x in Ids(c.sh.waiters) {
          var w :| w in c.sh.waiters && w.id == x;
          assert LinkOf(c, w);
        }
      }
    }
  }

  /** `return_free_slot` wakes the waiter it takes off the queue. */
  lemma ReturnCovers(s: Shared, slot: nat)
    requires Distinct(s.waiters)
    ensures var s' := ReturnFreeSlot(s, slot);
            s.log <= s'.log && forall w :: w in s.waiters ==> w.id in Ids(s'.waiters) || w.waker in s'.log[|s.log|..]
  {
    var s' := ReturnFreeSlot(s, slot);
    if s.waiters != [] {
      IdsPop(s.waiters);
      assert s'.log[|s.log|..] == [s.waiters[0].waker];
      forall w | w in s.waiters ensures w.id in Ids(s'.waiters) || w.waker in s'.log[|s.log|..] {
        if w != s.waiters[0] { assert w in s.waiters[1..] by { assert s.waiters == [s.waiters[0]] + s.waiters[1..]; } }
      }
    }
  }

  lemma SameWaitersCovered<V>(c: Channel<V>, c': Channel<V>, id: Id)
    requires SendersWakeOk(c) && QueueOk(c) && c.sh.log <= c'.sh.log
    requires c'.sh.waiters == c.sh.waiters && c'.receiver == c.receiver
    requires forall x :: x in c'.senders && x != id ==> x in c.senders && c'.senders[x] == c.senders[x]
    requires id in c'.senders && c'.senders[id].Parked? ==> id in c.senders && c'.senders[id] == c.senders[id]
    ensures SendersWakeOk(c')
  {
    assert forall w :: w in c.sh.waiters ==> w.id in Ids(c.sh.waiters);
    ParkedStayCovered(c, c', {});
  }

  lemma GiveBackCovers<V>(c: Channel<V>, id: Id, c': Channel<V>)
    requires SendersWakeOk(c) && QueueOk(c) && SenderStep(c, id, GiveBack) == Some(c')
    ensures SendersWakeOk(c')
  {
    ReturnCovers(c.sh, c.senders[id].slot);
    ParkedStayCovered(c, c', {id});
  }

  lemma UnlinkCovers<V>(c: Channel<V>, id: Id, c': Channel<V>)
    requires SendersWakeOk(c) && QueueOk(c)
    requires c'.sh.log == c.sh.log && c'.receiver == c.receiver && Ids(c'.sh.waiters) == Ids(c.sh.waiters) - {id}
    requires id in c'.senders && !c'.senders[id].Parked?
    requires forall x :: x in c'.senders && x != id ==> x in c.senders && c'.senders[x] == c.senders[x]
    ensures SendersWakeOk(c')
  {
    forall w | w in c.sh.waiters && w.id != id ensures w.id in Ids(c'.sh.waiters) {
      assert w.id in Ids(c.sh.waiters);
    }
    ParkedStayCovered(c, c', {id});
  }

  lemma ParkCovers<V>(c: Channel<V>, id: Id, waker: Waker, c': Channel<V>)
    requires SendersWakeOk(c) && QueueOk(c) && SenderStep(c, id, Poll(waker)) == Some(c')
    requires c.senders[id].Started? && c'.senders[id].Parked?
    ensures SendersWakeOk(c')
  {
    IdsPush(c.sh.waiters, Waiter(id, waker, c.sh.ticket));
    assert forall w :: w in c.sh.waiters ==> w.id in Ids(c.sh.waiters);
    ParkedStayCovered(c, c', {id});
  }

  lemma SenderStepSendersWake<V>(c: Channel<V>, id: Id, a: SenderAction<V>)
    requires SendersWakeOk(c) && QueueOk(c) && SenderStep(c, id, a).Some?
    ensures SendersWakeOk(SenderStep(c, id, a).value)
  {
    var c' := SenderStep(c, id, a).value;
    if a.GiveBack? {
      GiveBackCovers(c, id, c');
    } else if a.Unlink? {
      IdsWithout(c.sh.waiters, id);
      UnlinkCovers(c, id, c');
    } else if a.Poll? && c.senders[id].Started? && c'.senders[id].Parked? {
      ParkCovers(c, id, a.waker, c');
    } else {
      SameWaitersCovered(c, c', if a.Clone? then a.copy else id);
    }
  }

  lemma ReceiverStepSendersWake<V>(c: Channel<V>, a: ReceiverAction)
    requires SendersWakeOk(c) && QueueOk(c) && ReceiverStep(c, a).Some?
    ensures SendersWakeOk(ReceiverStep(c, a).value)
  {
    var c' := ReceiverStep(c, a).value;
    assert forall w :: w in c.sh.waiters ==> w.id in Ids(c.sh.waiters);
    if a.HandBack? {
      ReturnCovers(c.sh, c.receiver.slot);
    } else if a.PopWaiter? && c.sh.waiters != [] {
      IdsPop(c.sh.waiters);
      assert c.sh.waiters == [c.sh.waiters[0]] + c.sh.waiters[1..];
    }
    ParkedStayCovered(c, c', {});
  }

  function Live<V>(c: Channel<V>, id: Id): int {
    if id in c.senders && !c.senders[id].DropNotifying? then 1 else 0
  }

  lemma SizeExcept<T>(h: set<T>, h': set<T>, x: T)
    requires h - {x} == h' - {x}
    ensures |h'| == |h| - (if x in h then 1 else 0) + (if x in h' then 1 else 0)
  {
    assert |h - {x}| == |h| - (if x in h then 1 else 0);
    assert |h' - {x}| == |h'| - (if x in h' then 1 else 0);
  }

  lemma HandlesAfter<V>(c: Channel<V>, c': Channel<V>, id: Id)
    requires HandlesOk(c)
    requires forall x :: x != id ==> (x in c'.senders <==> x in c.senders)
    requires forall x :: x != id && x in c.senders ==> c'.senders[x] == c.senders[x]
    requires c'.sh.numSenders == c.sh.numSenders - Live(c, id) + Live(c', id)
    ensures HandlesOk(c')
  {
    var h, h' := Handles(c), Handles(c');
    assert id in h <==> Live(c, id) == 1;
    assert id in h' <==> Live(c', id) == 1;
    assert h - {id} == h' - {id};
    SizeExcept(h, h', id);
  }

  lemma SenderStepHandles<V>(c: Channel<V>, id: Id, a: SenderAction<V>)
    requires HandlesOk(c) && SenderStep(c, id, a).Some?
    ensures HandlesOk(SenderStep(c, id, a).value)
  {
    HandlesAfter(c, SenderStep(c, id, a).value, if a.Clone? then a.copy else id);
  }
}
