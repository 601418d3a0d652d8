/** The state of `rticx-async/src/channel.rs` that is only touched inside critical sections,
    and one function per critical section.  The protocol (channel_protocol.dfy) takes its steps
    from these functions and the heap class (channel_heap.dfy) is proved to compute them. */
module ChannelCore {
  import opened Wrappers

  type Id = nat
  type Waker = nat

  /** An entry of the wait queue: the waiting sender, the waker stored in its link and
      its arrival number. */
  datatype Waiter = Waiter(id: Id, waker: Waker, ticket: nat)

  /** `cells` holds the non-empty slot cells (`free_slot_ptr`) of the senders in a `send` call.
      `log` is the sequence of all `wake()` calls, `ticket` counts the pushes on the wait queue and
      `granted` lists the arrival numbers of the waiters that were handed a slot. */
  datatype Shared = Shared(
    freeq: seq<nat>,
    readyq: seq<nat>,
    waiters: seq<Waiter>,
    cells: map<Id, nat>,
    receiverDropped: bool,
    numSenders: nat,
    receiverWaker: Option<Waker>,
    log: seq<Waker>,
    ticket: nat,
    granted: seq<nat>)

  datatype Poll = Closed | Refused | Pending | Queued | Got(slot: nat)

  ghost function Ids(ws: seq<Waiter>): set<Id> {
    set w | w in ws :: w.id
  }

  function WakersOf(ws: seq<Waiter>): seq<Waker> {
    if ws == [] then [] else [ws[0].waker] + WakersOf(ws[1..])
  }

  ghost predicate Distinct(ws: seq<Waiter>) {
    forall i, j :: 0 <= i < j < |ws| ==> ws[i].id != ws[j].id
  }

  /** Arrival order. */
  ghost predicate InOrder(ws: seq<Waiter>) {
    forall i, j :: 0 <= i < j < |ws| ==> ws[i].ticket < ws[j].ticket
  }

  /** The wait queue after `remove_from_list` on the link of sender `id`. */
  function Without(ws: seq<Waiter>, id: Id): (r: seq<Waiter>)
    ensures |r| <= |ws|
    ensures forall w :: w in r ==> w in ws
    ensures forall w :: w in ws && w.id != id ==> w in r
  {
    if ws == [] then []
    else if ws[0].id == id then ws[1..]
    else [ws[0]] + Without(ws[1..], id)
  }

  /** `return_free_slot`: the head waiter gets the slot and is woken, else it goes to `freeq`. */
  function ReturnFreeSlot(s: Shared, slot: nat): Shared {
    if s.waiters != [] then
      var w := s.waiters[0];
      s.(waiters := s.waiters[1..], cells := s.cells[w.id := slot], log := s.log + [w.waker],
         granted := s.granted + [w.ticket])
    else
      s.(freeq := s.freeq + [slot])
  }

  /** The poll closure of `send`; `linked` says whether a link was inserted by an earlier poll. */
  function PollSend(s: Shared, id: Id, waker: Waker, linked: bool, popped: bool): (Shared, Poll) {
    if s.receiverDropped then
      (s, Closed)
    else if linked then
      if popped then
        if id in s.cells then (s.(cells := s.cells - {id}), Got(s.cells[id])) else (s, Refused)
      else
        (s, Pending)
    else if s.waiters != [] || s.freeq == [] then
      (s.(waiters := s.waiters + [Waiter(id, waker, s.ticket)], ticket := s.ticket + 1), Queued)
    else
      (s.(freeq := s.freeq[..|s.freeq| - 1]), Got(s.freeq[|s.freeq| - 1]))
  }

  /** `try_send`: `freeq.pop_front()`. */
  function TakeFree(s: Shared): (Shared, Option<nat>) {
    if s.freeq == [] then (s, None) else (s.(freeq := s.freeq[1..]), Some(s.freeq[0]))
  }

  /** `send_footer`: `readyq.push_back_unchecked(idx)`. */
  function PushReady(s: Shared, slot: nat): Shared {
    s.(readyq := s.readyq + [slot])
  }

  /** `try_recv`: `readyq.pop_front()`. */
  function PopReady(s: Shared): (Shared, Option<nat>) {
    if s.readyq == [] then (s, None) else (s.(readyq := s.readyq[1..]), Some(s.readyq[0]))
  }

  /** `Receiver::drop`: `readyq.pop_back()`. */
  function DrainReady(s: Shared): (Shared, Option<nat>) {
    if s.readyq == [] then (s, None)
    else (s.(readyq := s.readyq[..|s.readyq| - 1]), Some(s.readyq[|s.readyq| - 1]))
  }

  /** `Receiver::drop`: `wait_queue.pop()`; the waker is called after the critical section. */
  function PopWaiter(s: Shared): (Shared, Option<Waker>) {
    if s.waiters == [] then (s, None) else (s.(waiters := s.waiters[1..]), Some(s.waiters[0].waker))
  }

  /** The dropper of `send`: `link.remove_from_list(&wait_queue)`. */
  function Unlink(s: Shared, id: Id): Shared {
    s.(waiters := Without(s.waiters, id))
  }

  /** The dropper of `send`: `free_slot_ptr2.replace_exclusive(None)`. */
  function TakeCell(s: Shared, id: Id): (Shared, Option<nat>) {
    if id in s.cells then (s.(cells := s.cells - {id}), Some(s.cells[id])) else (s, None)
  }

  /** `receiver_waker.wake()`. */
  function WakeReceiver(s: Shared): Shared {
    match s.receiverWaker
    case Some(w) => s.(receiverWaker := None, log := s.log + [w])
    case None => s
  }

  /** `receiver_waker.register(cx.waker())`. */
  function Register(s: Shared, waker: Waker): Shared {
    match s.receiverWaker
    case Some(w) => if w == waker then s else s.(receiverWaker := Some(waker), log := s.log + [w])
    case None => s.(receiverWaker := Some(waker))
  }

  lemma IdsPush(ws: seq<Waiter>, w: Waiter)
    ensures Ids(ws + [w]) == Ids(ws) + {w.id}
  {
    assert forall x :: x in ws + [w] <==> x in ws || x == w;
  }

  lemma IdsPop(ws: seq<Waiter>)
    requires ws != [] && Distinct(ws)
    ensures Ids(ws[1..]) == Ids(ws) - {ws[0].id}
    ensures Distinct(ws[1..])
  {
    assert ws == [ws[0]] + ws[1..];
    assert forall x :: x in ws <==> x in ws[1..] || x == ws[0];
  }

  lemma {:induction false} IdsWithout(ws: seq<Waiter>, id: Id)
    requires Distinct(ws)
    ensures Ids(Without(ws, id)) == Ids(ws) - {id}
    ensures Distinct(Without(ws, id))
  {
    if ws != [] {
      IdsPop(ws);
      if ws[0].id != id {
        IdsWithout(ws[1..], id);
        var r := Without(ws[1..], id);
        assert Without(ws, id) == [ws[0]] + r;
        assert forall x :: x in [ws[0]] + r <==> x in r || x == ws[0];
        forall j | 0 <= j < |r| ensures r[j].id != ws[0].id {
          assert r[j] in r && r[j].id in Ids(r);
        }
      }
    }
  }

  /** `remove_from_list` keeps arrival order. */
  lemma {:induction false} WithoutKeepsOrder(ws: seq<Waiter>, id: Id)
    requires InOrder(ws)
    ensures InOrder(Without(ws, id))
  {
    if ws != [] && ws[0].id != id {
      assert InOrder(ws[1..]);
      WithoutKeepsOrder(ws[1..], id);
      var r := Without(ws[1..], id);
      assert Without(ws, id) == [ws[0]] + r;
      forall j | 0 <= j < |r| ensures ws[0].ticket < r[j].ticket {
        assert r[j] in ws[1..];
      }
    }
  }

  /** On a queue without repeated senders, removal deletes exactly that sender's position. */
  lemma {:induction false} WithoutAt(ws: seq<Waiter>, k: nat)
    requires k < |ws| && Distinct(ws)
    ensures Without(ws, ws[k].id) == ws[..k] + ws[k + 1..]
  {
    if k > 0 {
      var rest := ws[1..];
      assert rest[k - 1] == ws[k];
      WithoutAt(rest, k - 1);
      assert rest[..k - 1] == ws[1..k] && rest[k..] == ws[k + 1..];
      assert [ws[0]] + (ws[1..k] + ws[k + 1..]) == ws[..k] + ws[k + 1..];
    }
  }

  lemma {:induction false} WithoutAbsent(ws: seq<Waiter>, id: Id)
    requires id !in Ids(ws)
    ensures Without(ws, id) == ws
  {
    if ws != [] {
      assert ws[0] in ws;
      assert forall w :: w in ws[1..] ==> w in ws;
      WithoutAbsent(ws[1..], id);
    }
  }
}
