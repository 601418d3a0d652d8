/** The `send` futures beside the heap channel: what each has left in its `link_ptr`.  Whatever calls are made, in any
    order and for any senders, the links meet what `PollSend` and `DropSend` need of them, and a link says `is_popped`
    exactly when its sender is off the wait queue, which is how the protocol reads it. */
module ChannelFutures {
  import opened Wrappers
  import opened ChannelCore
  import opened WaitQueues
  import opened ChannelHeap

  /** The links in the futures were pushed, and every link on the list is the one in its sender's future. */
  ghost predicate Fits(linkOf: map<Id, Link<WaitData>>, links: seq<Link<WaitData>>, pushed: set<Link<WaitData>>) {
    && (forall id :: id in linkOf ==> linkOf[id] in pushed && linkOf[id].val.cell == id)
    && (forall id :: id in Ids(Waiters(links)) ==> id in linkOf && linkOf[id] in links)
  }

  /** A sender that is still waiting does so with the same link. */
  lemma FewerLinksFit(linkOf: map<Id, Link<WaitData>>, was: seq<Link<WaitData>>, links: seq<Link<WaitData>>,
                      pushed: set<Link<WaitData>>)
    requires Fits(linkOf, was, pushed) && Distinct(Waiters(was)) && forall l :: l in links ==> l in was
    ensures Fits(linkOf, links, pushed)
  {
    forall id | id in Ids(Waiters(links)) ensures id in linkOf && linkOf[id] in links {
      var k :| 0 <= k < |links| && Waiters(links)[k].id == id;
      assert links[k] in links && links[k] in was;
      var i :| 0 <= i < |was| && was[i] == links[k];
      assert Waiters(was)[i] in Waiters(was);
      var j :| 0 <= j < |was| && was[j] == linkOf[id];
      assert Waiters(was)[i].id == Waiters(was)[j].id;
    }
  }

  lemma NewLinkFits(linkOf: map<Id, Link<WaitData>>, links: seq<Link<WaitData>>, pushed: set<Link<WaitData>>,
                    link: Link<WaitData>)
    requires Fits(linkOf, links, pushed) && link in pushed
    requires link.val.cell !in Ids(Waiters(links))
    ensures Fits(linkOf[link.val.cell := link], links + [link], pushed)
  {
    assert Waiters(links + [link]) == Waiters(links) + [WaiterOf(link)];
    IdsPush(Waiters(links), WaiterOf(link));
  }

  lemma ForgottenLinkFits(linkOf: map<Id, Link<WaitData>>, links: seq<Link<WaitData>>, pushed: set<Link<WaitData>>,
                          id: Id)
    requires Fits(linkOf, links, pushed) && id !in Ids(Waiters(links))
    ensures Fits(linkOf - {id}, links, pushed)
  {
  }

  /** What a future keeps after a poll that left `left`. */
  function Keeps(linkOf: map<Id, Link<WaitData>>, id: Id, left: Option<Link<WaitData>>): map<Id, Link<WaitData>> {
    match left
    case Some(link) => linkOf[id := link]
    case None => linkOf - {id}
  }

  lemma KeptKeys(linkOf: map<Id, Link<WaitData>>, id: Id, left: Option<Link<WaitData>>)
    ensures Keeps(linkOf, id, left).Keys == if left.Some? then linkOf.Keys + {id} else linkOf.Keys - {id}
    ensures id in linkOf ==> linkOf.Keys + {id} == linkOf.Keys
  {
  }

  lemma PolledFits(linkOf: map<Id, Link<WaitData>>, was: seq<Link<WaitData>>, links: seq<Link<WaitData>>,
                   pushed: set<Link<WaitData>>, id: Id, left: Option<Link<WaitData>>)
    requires Fits(linkOf, was, pushed)
    requires if links == was then left.None? ==> id !in Ids(Waiters(was))
             else left.Some? && links == was + [left.value] && id !in Ids(Waiters(was))
    requires left.Some? ==> left.value in pushed && left.value.val.cell == id
    requires links == was && left.Some? ==> id in linkOf && left.value == linkOf[id]
    ensures Fits(Keeps(linkOf, id, left), links, pushed)
  {
    if links != was {
      NewLinkFits(linkOf, was, pushed, left.value);
    } else if left.None? {
      ForgottenLinkFits(linkOf, was, pushed, id);
    }
  }

  lemma OnTheList(linkOf: map<Id, Link<WaitData>>, links: seq<Link<WaitData>>, pushed: set<Link<WaitData>>, id: Id)
    requires Fits(linkOf, links, pushed) && id in linkOf
    ensures linkOf[id] in links <==> id in Ids(Waiters(links))
  {
    if linkOf[id] in links {
      var k :| 0 <= k < |links| && links[k] == linkOf[id];
      assert Waiters(links)[k] in Waiters(links);
    }
  }

  class Futures {
    const channel: ChannelHeap.Channel
    /** `link_ptr` of the futures in which it is not `None`. */
    var linkOf: map<Id, Link<WaitData>>

    ghost predicate Valid()
      reads this, channel, channel.waitQueue, channel.waitQueue.links, channel.waitQueue.pushed
    {
      channel.Valid() && Fits(linkOf, channel.waitQueue.links, channel.waitQueue.pushed)
    }

    constructor (n: nat)
      ensures Valid() && fresh(channel) && linkOf == map[]
    {
      channel := new ChannelHeap.Channel(n);
      linkOf := map[];
      new;
      assert channel.waitQueue.links == [];
    }

    function LinkPtr(id: Id): Option<Link<WaitData>>
      reads this
    {
      if id in linkOf then Some(linkOf[id]) else None
    }

    /** What the protocol takes `is_popped` to be. */
    lemma PoppedIffOffTheList(id: Id)
      requires Valid() && id in linkOf
      ensures linkOf[id].isPopped <==> id !in Ids(channel.waiters)
    {
      OnTheList(linkOf, channel.waitQueue.links, channel.waitQueue.pushed, id);
    }

    /** The critical section of a poll: what it answers, and what it leaves in `link_ptr`. */
    method Section(id: Id, waker: Waker) returns (left: Option<Link<WaitData>>, r: ChannelCore.Poll)
      requires Valid()
      modifies channel, channel.waitQueue, channel.waitQueue.links
      ensures channel.Valid() && old(channel.waitQueue.pushed) <= channel.waitQueue.pushed
      ensures var popped := id !in old(Ids(channel.waiters));
              var (s, p) := PollSend(old(channel.View()), id, waker, id in linkOf, popped);
              channel.View() == s && r == p
      ensures if r.Queued? then left.Some? && left.value.val.cell == id && id !in old(Ids(channel.waiters))
                                && channel.waitQueue.links == old(channel.waitQueue.links) + [left.value]
              else channel.waitQueue.links == old(channel.waitQueue.links)
                   && left == if r.Closed? || r.Pending? then LinkPtr(id) else None
      ensures !r.Closed? && !r.Pending? ==> id !in old(Ids(channel.waiters))
    {
      var link := LinkPtr(id);
      if link.Some? { PoppedIffOffTheList(id); }
      left, r := channel.PollSend(id, waker, link);
    }

    /** A poll of the `send` future of `id`. */
    method Poll(id: Id, waker: Waker) returns (r: ChannelCore.Poll)
      requires Valid()
      modifies `linkOf, channel, channel.waitQueue, channel.waitQueue.links
      ensures Valid()
      ensures var popped := id !in old(Ids(channel.waiters));
              var (s, p) := PollSend(old(channel.View()), id, waker, id in old(linkOf), popped);
              channel.View() == s && r == p
      ensures old(channel.receiverDropped) <==> r.Closed?
      ensures !old(channel.receiverDropped) && id in old(linkOf) && id in old(Ids(channel.waiters)) ==> r.Pending?
      ensures !old(channel.receiverDropped) && id in old(linkOf) && id !in old(Ids(channel.waiters)) ==>
                && r == (if id in old(channel.cells) then Got(old(channel.cells)[id]) else Refused)
                && channel.cells == old(channel.cells) - {id}
      ensures linkOf.Keys == if r.Queued? then old(linkOf).Keys + {id}
                             else if r.Closed? || r.Pending? then old(linkOf).Keys else old(linkOf).Keys - {id}
    {
      ghost var was := channel.waitQueue.links;
      var left;
      left, r := Section(id, waker);
      Store(id, left, was);
      KeptKeys(old(linkOf), id, left);
    }

    /** What a poll leaves in `link_ptr`; `was` is the list before it. */
    method Store(id: Id, left: Option<Link<WaitData>>, ghost was: seq<Link<WaitData>>)
      requires channel.Valid() && Fits(linkOf, was, channel.waitQueue.pushed)
      requires if channel.waitQueue.links == was then left.None? ==> id !in Ids(Waiters(was))
               else left.Some? && channel.waitQueue.links == was + [left.value] && id !in Ids(Waiters(was))
      requires left.Some? ==> left.value in channel.waitQueue.pushed && left.value.val.cell == id
      requires channel.waitQueue.links == was && left.Some? ==> id in linkOf && left.value == linkOf[id]
      modifies `linkOf
      ensures Valid() && linkOf == Keeps(old(linkOf), id, left)
    {
      PolledFits(linkOf, was, channel.waitQueue.links, channel.waitQueue.pushed, id, left);
      linkOf := Keeps(linkOf, id, left);
    }

    /** The first section of the dropper: the future of `id` leaves the queue and is not polled again. */
    method Unlink(id: Id)
      requires Valid()
      modifies `linkOf, channel, channel.waitQueue, channel.waitQueue.links
      modifies if id in linkOf then {linkOf[id]} else {}
      ensures Valid() && linkOf == old(linkOf) - {id} && id !in Ids(channel.waiters)
      ensures channel.View() == ChannelCore.Unlink(old(channel.View()), id)
    {
      ghost var was, waiters := channel.waitQueue.links, channel.waiters;
      if id in linkOf {
        channel.RemoveWaiting(linkOf[id]);
      } else {
        WithoutAbsent(waiters, id);
      }
      IdsWithout(waiters, id);
      ghost var links, pushed := channel.waitQueue.links, channel.waitQueue.pushed;
      FewerLinksFit(linkOf, was, links, pushed);
      ForgottenLinkFits(linkOf, links, pushed, id);
      linkOf := linkOf - {id};
    }

    /** The whole dropper, if nothing interleaves. */
    method Drop(id: Id)
      requires Valid()
      modifies `linkOf, channel, channel.waitQueue, channel.waitQueue.links
      modifies if id in linkOf then {linkOf[id]} else {}
      ensures Valid() && linkOf == old(linkOf) - {id}
      ensures channel.View() == Dropped(old(channel.View()), id, id in old(linkOf))
    {
      var link := LinkPtr(id);
      ghost var was, view := channel.waitQueue.links, channel.View();
      channel.DropSend(id, link);
      DroppedIsOffTheList(view, id, link.Some?);
      ghost var links, pushed := channel.waitQueue.links, channel.waitQueue.pushed;
      FewerLinksFit(linkOf, was, links, pushed);
      ForgottenLinkFits(linkOf, links, pushed, id);
      linkOf := linkOf - {id};
    }

    /** `return_free_slot`. */
    method ReturnFreeSlot(slot: nat)
      requires Valid()
      modifies channel, channel.waitQueue, channel.waitQueue.links
      ensures Valid() && channel.View() == ChannelCore.ReturnFreeSlot(old(channel.View()), slot)
    {
      ghost var was := channel.waitQueue.links;
      channel.ReturnFreeSlot(slot);
      FewerLinksFit(linkOf, was, channel.waitQueue.links, channel.waitQueue.pushed);
    }

    /** A round of the second loop of `Receiver::drop`. */
    method PopWaiter() returns (waker: Option<Waker>)
      requires Valid()
      modifies channel, channel.waitQueue, channel.waitQueue.links
      ensures Valid() && (channel.View(), waker) == ChannelCore.PopWaiter(old(channel.View()))
    {
      ghost var was := channel.waitQueue.links;
      var head := channel.PopWaiting();
      waker := if head.Some? then Some(head.value.waker) else None;
      FewerLinksFit(linkOf, was, channel.waitQueue.links, channel.waitQueue.pushed);
    }

    /** `Receiver::drop`, if nothing interleaves. */
    method DropReceiver()
      requires Valid()
      modifies channel, channel.waitQueue, channel.waitQueue.links
      ensures Valid() && channel.waiters == []
    {
      ghost var was := channel.waitQueue.links;
      var _ := channel.DropReceiver();
      assert channel.waitQueue.links == [];
      FewerLinksFit(linkOf, was, [], channel.waitQueue.pushed);
    }
  }
}
