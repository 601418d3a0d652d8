/** The channel as the source writes it: an object whose critical sections update its queues in place, over the
    intrusive wait queue on the heap.  `View` is the abstract state of channel_core.dfy, and every method is proved to
    compute that module's function. */
module ChannelHeap {
  import opened Wrappers
  import opened ChannelCore
  import opened WaitQueues

  /** `WaitQueueData`: the waker and the pointer to the sender's slot cell, which is the sender's identity here, with
      the arrival number. */
  datatype WaitData = WaitData(waker: Waker, cell: Id, ticket: nat)

  function WaiterOf(l: Link<WaitData>): Waiter {
    Waiter(l.val.cell, l.val.waker, l.val.ticket)
  }

  function Waiters(links: seq<Link<WaitData>>): seq<Waiter> {
    seq(|links|, i requires 0 <= i < |links| => WaiterOf(links[i]))
  }

  function StillToWake(log: seq<Waker>, head: Option<WaitData>, rest: seq<Waiter>): seq<Waker> {
    log + (if head.Some? then [head.value.waker] else []) + WakersOf(rest)
  }

  /** The three sections of the dropper of `send` in a row. */
  function Dropped(s: Shared, id: Id, linked: bool): Shared {
    var (t, got) := TakeCell(if linked then Unlink(s, id) else s, id);
    if got.Some? then ReturnFreeSlot(t, got.value) else t
  }

  lemma DroppedIsOffTheList(s: Shared, id: Id, linked: bool)
    requires Distinct(s.waiters) && (!linked ==> id !in Ids(s.waiters))
    ensures id !in Ids(Dropped(s, id, linked).waiters)
  {
    IdsWithout(s.waiters, id);
    var (t, got) := TakeCell(if linked then Unlink(s, id) else s, id);
    if t.waiters != [] { IdsPop(t.waiters); }
  }

  function Reversed(s: seq<nat>): seq<nat> {
    if s == [] then [] else [s[|s| - 1]] + Reversed(s[..|s| - 1])
  }

  lemma WaitersCut(links: seq<Link<WaitData>>, k: nat)
    requires k < |links|
    ensures Waiters(links[..k] + links[k + 1..]) == Waiters(links)[..k] + Waiters(links)[k + 1..]
  {
  }

  /** Deleting a link from the list deletes its sender from the waiters. */
  lemma RemovalUnlinks(links: seq<Link<WaitData>>, link: Link<WaitData>, rest: seq<Link<WaitData>>)
    requires Deletes(links, link, rest) && Distinct(Waiters(links))
    requires link.val.cell in Ids(Waiters(links)) ==> link in links
    ensures Waiters(rest) == Without(Waiters(links), link.val.cell) && Distinct(Waiters(rest))
    ensures forall l :: l in rest ==> l in links
  {
    var ws := Waiters(links);
    if link in links {
      var k: nat :| CutAt(links, link, rest, k);
      WithoutAt(ws, k);
      IdsWithout(ws, link.val.cell);
      WaitersCut(links, k);
    } else {
      WithoutAbsent(ws, link.val.cell);
    }
  }

  class Channel {
    const waitQueue: DoublyLinkedList<WaitData>
    var freeq: seq<nat>
    var readyq: seq<nat>
    // the non-empty slot cells, which live in the `send` futures
    var cells: map<Id, nat>
    var receiverWaker: Option<Waker>
    var receiverDropped: bool
    var numSenders: nat
    // histories: the `wake()` calls, the pushes on the wait queue, the arrival numbers that were handed a slot
    var log: seq<Waker>
    var ticket: nat
    var granted: seq<nat>
    // what the list holds
    ghost var waiters: seq<Waiter>

    ghost function View(): Shared
      reads this
    {
      Shared(freeq, readyq, waiters, cells, receiverDropped, numSenders, receiverWaker, log, ticket, granted)
    }

    /** The list is well formed, reads as `waiters` and holds at most one link of each sender. */
    ghost predicate Valid()
      reads `waiters, waitQueue, waitQueue.links, waitQueue.pushed
    {
      waitQueue.Valid() && waiters == Waiters(waitQueue.links) && Distinct(waiters)
    }

    /** The abstract state, if the representation is valid. */
    ghost function Abs(): Option<Shared>
      reads this, waitQueue, waitQueue.links, waitQueue.pushed
    {
      if Valid() then Some(View()) else None
    }

    /** `Channel::new` and `split`. */
    constructor (n: nat)
      ensures Valid()
      ensures View() == Shared(seq(n, i => i), [], [], map[], false, 1, None, [], 0, [])
    {
      waitQueue := new DoublyLinkedList();
      freeq, readyq, cells := [], [], map[];
      receiverWaker, receiverDropped, numSenders := None, false, 1;
      log, ticket, granted := [], 0, [];
      waiters := [];
      new;
      for idx := 0 to n
        invariant Valid()
        invariant View() == Shared(seq(idx, i => i), [], [], map[], false, 1, None, [], 0, [])
      {
        freeq := freeq + [idx];
      }
    }

    /** `wait_queue.pop()`. */
    method PopWaiting() returns (head: Option<WaitData>)
      requires Valid()
      modifies `waiters, waitQueue, waitQueue.links
      ensures Abs() == Some(old(View()).(waiters := waiters)) && waitQueue.pushed == old(waitQueue.pushed)
      ensures forall l :: l in waitQueue.links ==> l in old(waitQueue.links)
      ensures head.None? ==> old(waiters) == waiters == []
      ensures head.Some? ==>
                && old(waiters) != [] && waiters == old(waiters)[1..]
                && old(waiters)[0] == Waiter(head.value.cell, head.value.waker, head.value.ticket)
    {
      head := waitQueue.Pop();
      waiters := if head.Some? then waiters[1..] else [];
      assert waiters == Waiters(waitQueue.links);
    }

    /** `return_free_slot`. */
    method ReturnFreeSlot(slot: nat)
      requires Valid()
      modifies `freeq, `cells, `log, `granted, `waiters, waitQueue, waitQueue.links
      ensures Abs() == Some(ChannelCore.ReturnFreeSlot(old(View()), slot))
      ensures if old(waiters) == [] then freeq == old(freeq) + [slot] && cells == old(cells) && log == old(log)
              else var w := old(waiters)[0];
                   && waiters == old(waiters)[1..] && cells == old(cells)[w.id := slot] && log == old(log) + [w.waker]
                   && freeq == old(freeq) && granted == old(granted) + [w.ticket]
      ensures waitQueue.pushed == old(waitQueue.pushed)
      ensures forall l :: l in waitQueue.links ==> l in old(waitQueue.links)
    {
      var head := PopWaiting();
      if head.Some? {
        var data := head.value;
        cells, log, granted := cells[data.cell := slot], log + [data.waker], granted + [data.ticket];
      } else {
        freeq := freeq + [slot];
      }
    }

    /** `wait_queue.push` of a new link. */
    method PushWaiting(id: Id, waker: Waker) returns (link: Link<WaitData>)
      requires Valid() && id !in Ids(waiters)
      modifies `waiters, `ticket, waitQueue, waitQueue.links
      ensures waitQueue.links == old(waitQueue.links) + [link] && fresh(link) && link.val.cell == id
      ensures waitQueue.pushed == old(waitQueue.pushed) + {link}
      ensures Abs() == Some(old(View()).(waiters := old(waiters) + [Waiter(id, waker, old(ticket))],
                                         ticket := old(ticket) + 1))
    {
      link := new Link(WaitData(waker, id, ticket));
      waitQueue.Push(link);
      waiters := waiters + [Waiter(id, waker, ticket)];
      ticket := ticket + 1;
    }

    /** `link.remove_from_list(&wait_queue)`; `link` is the link of a waiting sender or was popped. */
    method RemoveWaiting(link: Link<WaitData>)
      requires Valid() && link in waitQueue.pushed
      requires link.val.cell in Ids(waiters) ==> link in waitQueue.links
      modifies `waiters, waitQueue, waitQueue.links, link
      ensures Abs() == Some(ChannelCore.Unlink(old(View()), link.val.cell)) && link.isPopped
      ensures waitQueue.pushed == old(waitQueue.pushed)
      ensures forall l :: l in waitQueue.links ==> l in old(waitQueue.links)
    {
      ghost var was := waitQueue.links;
      link.RemoveFromList(waitQueue);
      ghost var links := waitQueue.links;
      RemovalUnlinks(was, link, links);
      waiters := Waiters(links);
      assert Valid();
    }

    /** The closure that `send` polls.  `link` is what an earlier poll left in `link_ptr`. */
    method PollSend(id: Id, waker: Waker, link: Option<Link<WaitData>>) returns (left: Option<Link<WaitData>>, r: Poll)
      requires Valid()
      requires link.Some? ==> link.value in waitQueue.pushed && link.value.val.cell == id
      requires id in Ids(waiters) ==> link.Some? && link.value in waitQueue.links
      modifies `freeq, `cells, `waiters, `ticket, waitQueue, waitQueue.links
      ensures var popped := link.Some? && old(link.value.isPopped);
              var (s, p) := ChannelCore.PollSend(old(View()), id, waker, link.Some?, popped);
              Abs() == Some(s) && r == p
      ensures r == (if receiverDropped then Closed
                    else if link.Some? then
                      if !old(link.value.isPopped) then Pending
                      else if id in old(cells) then Got(old(cells)[id]) else Refused
                    else if old(waiters) == [] && old(freeq) != [] then Got(old(freeq)[|old(freeq)| - 1])
                    else Queued)
      ensures freeq == if r.Got? && link.None? then old(freeq)[..|old(freeq)| - 1] else old(freeq)
      ensures cells == if r.Got? && link.Some? then old(cells) - {id} else old(cells)
      ensures waiters == if r.Queued? then old(waiters) + [Waiter(id, waker, old(ticket))] else old(waiters)
      ensures left == if r.Closed? || r.Pending? then link else if r.Queued? then left else None
      ensures old(waitQueue.pushed) <= waitQueue.pushed
      ensures if r.Queued? then left.Some? && left.value.val.cell == id
                                && waitQueue.links == old(waitQueue.links) + [left.value]
              else waitQueue.links == old(waitQueue.links)
    {
      if receiverDropped {
        return link, Closed;
      }
      var wqEmpty := waitQueue.IsEmpty();
      if link.Some? {
        if !link.value.isPopped {
          return link, Pending;
        }
        if id in cells {
          var slot := cells[id];
          cells := cells - {id};
          return None, Got(slot);
        }
        return None, Refused;
      }
      if !wqEmpty || freeq == [] {
        var newLink := PushWaiting(id, waker);
        return Some(newLink), Queued;
      }
      var slot := freeq[|freeq| - 1];
      freeq := freeq[..|freeq| - 1];
      return None, Got(slot);
    }

    /** `free_slot_ptr2.replace_exclusive(None)`. */
    method TakeCell(id: Id) returns (slot: Option<nat>)
      requires Valid()
      modifies `cells
      ensures (Abs(), slot) == var (s, got) := ChannelCore.TakeCell(old(View()), id); (Some(s), got)
      ensures slot == (if id in old(cells) then Some(old(cells)[id]) else None) && cells == old(cells) - {id}
    {
      if id in cells {
        slot := Some(cells[id]);
        cells := cells - {id};
      } else {
        slot := None;
      }
    }

    /** The dropper of `send`, if nothing interleaves: the link leaves the queue, a granted slot goes on. */
    method DropSend(id: Id, link: Option<Link<WaitData>>)
      requires Valid()
      requires link.Some? ==> link.value in waitQueue.pushed && link.value.val.cell == id
      requires id in Ids(waiters) ==> link.Some? && link.value in waitQueue.links
      modifies `freeq, `cells, `log, `granted, `waiters, waitQueue, waitQueue.links
      modifies if link.Some? then {link.value} else {}
      ensures Abs() == Some(Dropped(old(View()), id, link.Some?))
      ensures waitQueue.pushed == old(waitQueue.pushed)
      ensures forall l :: l in waitQueue.links ==> l in old(waitQueue.links)
    {
      if link.Some? {
        RemoveWaiting(link.value);
      }
      var got := TakeCell(id);
      if got.Some? {
        ReturnFreeSlot(got.value);
      }
    }

    /** `try_send`: `freeq.pop_front()`. */
    method TakeFree() returns (slot: Option<nat>)
      requires Valid()
      modifies `freeq
      ensures (Abs(), slot) == var (s, got) := ChannelCore.TakeFree(old(View())); (Some(s), got)
      ensures old(freeq) == (if slot.Some? then [slot.value] else []) + freeq && (slot.None? ==> freeq == [])
    {
      if freeq == [] {
        return None;
      }
      slot := Some(freeq[0]);
      freeq := freeq[1..];
    }

    /** `send_footer`: `readyq.push_back_unchecked(slot)`. */
    method PushReady(slot: nat)
      requires Valid()
      modifies `readyq
      ensures Abs() == Some(ChannelCore.PushReady(old(View()), slot)) && readyq == old(readyq) + [slot]
    {
      readyq := readyq + [slot];
    }

    /** `try_recv`: `readyq.pop_front()`. */
    method PopReady() returns (slot: Option<nat>)
      requires Valid()
      modifies `readyq
      ensures (Abs(), slot) == var (s, got) := ChannelCore.PopReady(old(View())); (Some(s), got)
      ensures old(readyq) == (if slot.Some? then [slot.value] else []) + readyq && (slot.None? ==> readyq == [])
    {
      if readyq == [] {
        return None;
      }
      slot := Some(readyq[0]);
      readyq := readyq[1..];
    }

    /** `CriticalSectionWakerRegistration::register`. */
    method Register(waker: Waker)
      requires Valid()
      modifies `receiverWaker, `log
      ensures Abs() == Some(ChannelCore.Register(old(View()), waker)) && receiverWaker == Some(waker)
      ensures log == old(log) + if old(receiverWaker).Some? && old(receiverWaker) != Some(waker)
                                then [old(receiverWaker).value] else []
    {
      if receiverWaker == Some(waker) {
        return;
      }
      var before := receiverWaker;
      receiverWaker := Some(waker);
      if before.Some? {
        log := log + [before.value];
      }
    }

    /** `CriticalSectionWakerRegistration::wake`. */
    method WakeReceiver()
      requires Valid()
      modifies `receiverWaker, `log
      ensures Abs() == Some(ChannelCore.WakeReceiver(old(View()))) && receiverWaker == None
      ensures log == old(log) + if old(receiverWaker).Some? then [old(receiverWaker).value] else []
    {
      if receiverWaker.Some? {
        log := log + [receiverWaker.value];
        receiverWaker := None;
      }
    }

    /** The first loop of `Receiver::drop`: every ready slot is handed out once to be dropped, last first. */
    method DrainReady() returns (drained: seq<nat>)
      requires Valid()
      modifies `readyq
      ensures Abs() == Some(old(View()).(readyq := []))
      ensures drained == Reversed(old(readyq))
    {
      drained := [];
      while readyq != []
        invariant drained + Reversed(readyq) == Reversed(old(readyq))
        decreases |readyq|
      {
        drained := drained + [readyq[|readyq| - 1]];
        readyq := readyq[..|readyq| - 1];
      }
    }

    /** `waker.wake()` and the next `wait_queue.pop()`. */
    method WakeOne(data: WaitData) returns (head: Option<WaitData>)
      requires Valid()
      modifies `log, `waiters, waitQueue, waitQueue.links
      ensures Valid() && waitQueue.pushed == old(waitQueue.pushed)
      ensures forall l :: l in waitQueue.links ==> l in old(waitQueue.links)
      ensures head.None? ==> waiters == old(waiters) == []
      ensures head.Some? ==> |waiters| == |old(waiters)| - 1
      ensures StillToWake(log, head, waiters) == StillToWake(old(log), Some(data), old(waiters))
    {
      ghost var rest := waiters;
      log := log + [data.waker];
      head := PopWaiting();
      assert WakersOf(rest) == (if head.Some? then [head.value.waker] else []) + WakersOf(waiters);
    }

    /** The second loop of `Receiver::drop`: every waiter is woken, in arrival order. */
    method WakeWaiters()
      requires Valid()
      modifies `log, `waiters, waitQueue, waitQueue.links
      ensures Abs() == Some(old(View()).(waiters := [], log := old(log) + WakersOf(old(waiters))))
      ensures waitQueue.pushed == old(waitQueue.pushed)
    {
      ghost var all := log + WakersOf(waiters);
      var head := PopWaiting();
      while head.Some?
        invariant Valid() && waitQueue.pushed == old(waitQueue.pushed)
        invariant forall l :: l in waitQueue.links ==> l in old(waitQueue.links)
        invariant head.None? ==> waiters == []
        invariant StillToWake(log, head, waiters) == all
        decreases |waiters| + if head.Some? then 1 else 0
      {
        head := WakeOne(head.value);
      }
      assert log == all;
    }

    /** `Receiver::drop`, if nothing interleaves. */
    method DropReceiver() returns (drained: seq<nat>)
      requires Valid()
      modifies `receiverDropped, `readyq, `log, `waiters, waitQueue, waitQueue.links
      ensures Abs() == Some(old(View()).(receiverDropped := true, readyq := [], waiters := [],
                                         log := old(log) + WakersOf(old(waiters))))
      ensures drained == Reversed(old(readyq)) && waitQueue.pushed == old(waitQueue.pushed)
    {
      receiverDropped := true;
      drained := DrainReady();
      WakeWaiters();
    }
  }
}
