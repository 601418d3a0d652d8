/** `split` called again on a channel that has been used: it refills the free queue and sets the sender count, and
    leaves everything else as it is. */
module ChannelReuse {
  import opened Wrappers
  import opened ChannelCore
  import opened ChannelProtocol
  import opened ChannelOwnership
  import opened ChannelQueue
  import opened ChannelDelivery
  import opened ChannelWakeups
  import opened ChannelTheorems

  /** No call is in progress: `split` takes the channel by mutable reference, so all handles are gone or forgotten. */
  ghost predicate Still<V>(c: Channel<V>) {
    (c.receiver.Ready? || c.receiver.Gone?) && forall id :: id in c.senders ==> c.senders[id].Idle?
  }

  /** The histories of values start anew. */
  function Resplit<V>(c: Channel<V>): Channel<V> {
    Channel(c.n, c.sh.(freeq := seq(c.n, i => i), numSenders := 1), c.slots, map[0 := Idle], Ready, [], [], {})
  }

  lemma NothingInProgress<V>(c: Channel<V>)
    requires Inv(c) && Still(c)
    ensures c.sh.waiters == [] && c.sh.cells == map[]
  {
    forall id: Id ensures id !in c.sh.cells && id !in Ids(c.sh.waiters) {
      NotWaiting(c, id);
      if id in c.senders { assert SenderQueueOk(c, id); }
    }
    assert c.sh.cells.Keys == {};
    SomeoneWaits(c.sh.waiters);
  }

  lemma SomeoneWaits(ws: seq<Waiter>)
    ensures ws != [] ==> Ids(ws) != {}
  {
    if ws != [] {
      assert ws[0] in ws;
      assert ws[0].id in Ids(ws);
    }
  }

  lemma FreshOwned<V>(c: Channel<V>)
    requires Inv(c) && Still(c) && c.sh.readyq == []
    ensures Owned(Resplit(c))
  {
    NothingInProgress(c);
    var d, o := Resplit(c), seq(c.n, _ => InFreeq);
    forall i: nat | i < d.n ensures Holds(d, o[i], i) {
      assert d.sh.freeq[i] == i;
    }
    var was: seq<Place> :| OwnedBy(c, was);
    assert OwnedBy(d, o);
  }

  lemma SafeResplit<V>(c: Channel<V>)
    requires Inv(c) && Still(c) && c.sh.readyq == [] && !c.sh.receiverDropped
    ensures Inv(Resplit(c))
  {
    NothingInProgress(c);
    FreshOwned(c);
    AllFree(c);
    forall i: nat | i < c.n ensures i < |c.slots| && c.slots[i] == Uninit {
      assert i in c.sh.freeq;
      var k :| 0 <= k < |c.sh.freeq| && c.sh.freeq[k] == i;
    }
    assert Handles(Resplit(c)) == {0};
  }

  /** When a second `split` is safe: exactly if no message is queued and the receiver was not dropped.  Then the new
      channel satisfies the invariant, and with it everything that ChannelTheorems says of a run.  Otherwise an index
      is on both queues at once, or the new receiver counts as dropped and every `send` is refused. */
  lemma SecondSplit<V>(n: nat, acts: seq<Action<V>>, c: Channel<V>, w: Waker)
    requires Reachable(n, acts, c) && Still(c)
    ensures Inv(Resplit(c)) <==> c.sh.readyq == [] && !c.sh.receiverDropped
    ensures c.sh.readyq != [] ==> exists i :: i in c.sh.readyq && i in Resplit(c).sh.freeq
    ensures c.sh.receiverDropped ==> PollSend(Resplit(c).sh, 0, w, false, false).1 == Closed
  {
    ReachableInv(n, acts, c);
    if c.sh.readyq != [] {
      var o: seq<Place> :| OwnedBy(c, o);
      var i := c.sh.readyq[0];
      assert i in c.sh.readyq && Resplit(c).sh.freeq[i] == i;
    } else if !c.sh.receiverDropped {
      SafeResplit(c);
    }
  }
}
