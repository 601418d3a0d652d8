/** What each operation of the channel answers and does, in every reachable state, in terms of the queues, the cells and
    the values. */
module ChannelOperations {
  import opened Wrappers
  import opened ChannelCore
  import opened ChannelProtocol
  import opened ChannelOwnership
  import opened ChannelQueue
  import opened ChannelDelivery
  import opened ChannelWakeups
  import opened ChannelTheorems

  /** Nobody but sender `id` has moved. */
  ghost predicate OnlySender<V>(c: Channel<V>, d: Channel<V>, id: Id) {
    && d.n == c.n && d.receiver == c.receiver && d.received == c.received && d.retired == c.retired
    && d.senders.Keys == c.senders.Keys && forall x :: x in c.senders && x != id ==> d.senders[x] == c.senders[x]
  }

  /** A slot that is given up belongs to the first waiter, who is woken, or is free if nobody waits. */
  ghost predicate GivenUp(s: Shared, t: Shared, slot: nat) {
    && t.readyq == s.readyq && t.receiverDropped == s.receiverDropped && t.numSenders == s.numSenders
    && t.receiverWaker == s.receiverWaker && t.ticket == s.ticket
    && if s.waiters == [] then
         && t.freeq == s.freeq + [slot] && t.waiters == [] && t.cells == s.cells && t.log == s.log
         && t.granted == s.granted
       else
         var w := s.waiters[0];
         && t.freeq == s.freeq && t.waiters == s.waiters[1..] && t.cells == s.cells[w.id := slot]
         && t.log == s.log + [w.waker] && t.granted == s.granted + [w.ticket]
  }

  /** `split`: all slots are free, in order, and hold nothing; there is one handle, and the receiver. */
  lemma SplitIsFresh<V>(n: nat)
    ensures var c := Split<V>(n);
            && c.n == |c.slots| == |c.sh.freeq| == n && c.senders == map[0 := Idle] && c.receiver == Ready
            && c.sh == Shared(c.sh.freeq, [], [], map[], false, 1, None, [], 0, [])
            && c.sent == c.received == [] && c.retired == {}
            && forall i: nat :: i < n ==> c.sh.freeq[i] == i && c.slots[i] == Uninit
  {
  }

  // ----- `try_send`

  /** A `try_send` that nobody interrupts, up to its answer, or to the write of the value. */
  function TrySendCall<V>(c: Channel<V>, id: Id, v: V): Option<Channel<V>> {
    match SenderStep(c, id, TrySend(v))
    case None => None
    case Some(m) =>
      if id !in m.senders || m.senders[id].Failed? then Some(m)
      else
        match SenderStep(m, id, TryCheckOpen)
        case None => None
        case Some(d) => if id !in d.senders || d.senders[id].Failed? then Some(d) else SenderStep(d, id, TryTake)
  }

  /** `Full` if somebody waits, else `NoReceiver` if the receiver is dropped, else `Full` if no slot is free; else the
      first free slot is taken for the value.  An error hands the value back and changes nothing. */
  lemma TrySendAnswers<V>(c: Channel<V>, id: Id, v: V)
    requires id in c.senders && c.senders[id].Idle?
    ensures TrySendCall(c, id, v).Some?
    ensures var d := TrySendCall(c, id, v).value;
            && OnlySender(c, d, id) && d.slots == c.slots && d.sent == c.sent
            && d.senders[id] == (if c.sh.waiters != [] then Failed(Full(v))
                                 else if c.sh.receiverDropped then Failed(NoReceiver(v))
                                 else if c.sh.freeq == [] then Failed(Full(v))
                                 else Writing(v, c.sh.freeq[0]))
            && d.sh == if d.senders[id].Writing? then c.sh.(freeq := c.sh.freeq[1..]) else c.sh
  {
  }

  /** It takes a slot if and only if one is free and the receiver lives: nobody waits while a slot is free. */
  lemma TrySendTakesIff<V>(n: nat, acts: seq<Action<V>>, c: Channel<V>, id: Id, v: V)
    requires Reachable(n, acts, c) && id in c.senders && c.senders[id].Idle?
    ensures TrySendCall(c, id, v).Some?
    ensures TrySendCall(c, id, v).value.senders[id].Writing? <==> c.sh.freeq != [] && !c.sh.receiverDropped
  {
    ReachableInv(n, acts, c);
    TrySendAnswers(c, id, v);
  }

  /** A `try_send` that looks at the flag after the receiver was dropped, whatever the others do meanwhile. */
  lemma {:induction false} TrySendAfterDrop<V>(c: Channel<V>, id: Id, v: V, acts: seq<Action<V>>)
    requires c.sh.receiverDropped && id in c.senders
    requires c.senders[id] == TrySawNoWaiter(v) || c.senders[id] == Failed(NoReceiver(v))
    requires Run(c, acts).Some? && BySender(id, Return) !in acts
    ensures var d := Run(c, acts).value;
            id in d.senders && (d.senders[id] == TrySawNoWaiter(v) || d.senders[id] == Failed(NoReceiver(v)))
    decreases |acts|
  {
    if acts != [] {
      var m := Step(c, acts[0]).value;
      OneAfterDrop(c, id, v, acts[0], m);
      TrySendAfterDrop(m, id, v, acts[1..]);
    }
  }

  lemma OneAfterDrop<V>(c: Channel<V>, id: Id, v: V, a: Action<V>, m: Channel<V>)
    requires c.sh.receiverDropped && id in c.senders && Step(c, a) == Some(m) && a != BySender(id, Return)
    requires c.senders[id] == TrySawNoWaiter(v) || c.senders[id] == Failed(NoReceiver(v))
    ensures m.sh.receiverDropped && id in m.senders
    ensures m.senders[id] == TrySawNoWaiter(v) || m.senders[id] == Failed(NoReceiver(v))
  {
    match a
    case BySender(x, s) => SenderAfterDrop(c, x, s, m);
    case ByReceiver(r) => ReceiverAfterDrop(c, r, m);
  }

  lemma SenderAfterDrop<V>(c: Channel<V>, x: Id, s: SenderAction<V>, m: Channel<V>)
    requires SenderStep(c, x, s) == Some(m)
    ensures m.sh.receiverDropped == c.sh.receiverDropped
    ensures forall y :: y != x && y in c.senders ==> y in m.senders && m.senders[y] == c.senders[y]
  {
  }

  lemma ReceiverAfterDrop<V>(c: Channel<V>, r: ReceiverAction, m: Channel<V>)
    requires ReceiverStep(c, r) == Some(m)
    ensures c.sh.receiverDropped ==> m.sh.receiverDropped
    ensures m.senders == c.senders
  {
  }

  // ----- `send`

  /** The first poll of `send` takes the last free slot if there is one, nobody waits and the receiver lives; it fails
      if the receiver is dropped; else the sender joins the end of the wait queue with its waker. */
  lemma FirstPoll<V>(n: nat, acts: seq<Action<V>>, c: Channel<V>, id: Id, w: Waker, v: V)
    requires Reachable(n, acts, c) && id in c.senders && c.senders[id] == Started(v)
    ensures SenderStep(c, id, Poll(w)).Some?
    ensures var d := SenderStep(c, id, Poll(w)).value;
            && OnlySender(c, d, id) && d.slots == c.slots && d.sent == c.sent
            && (d.senders[id].Writing? <==> c.sh.freeq != [] && c.sh.waiters == [] && !c.sh.receiverDropped)
            && (d.senders[id].Parked? <==> c.sh.freeq == [] && !c.sh.receiverDropped)
            && (if d.senders[id].Writing? then
                  var last := |c.sh.freeq| - 1;
                  d.senders[id] == Writing(v, c.sh.freeq[last]) && d.sh == c.sh.(freeq := c.sh.freeq[..last])
                else if d.senders[id].Parked? then
                  && d.senders[id] == Parked(v, w, c.sh.ticket, |c.sh.log|)
                  && d.sh == c.sh.(waiters := c.sh.waiters + [Waiter(id, w, c.sh.ticket)], ticket := c.sh.ticket + 1)
                else d.senders[id] == Unlinked(Some(v)) && d.sh == c.sh)
  {
    ReachableInv(n, acts, c);
  }

  /** A later poll goes on to write the sender's own value into the slot it was granted if and only if the sender is off
      the wait queue and the receiver lives; then its cell is emptied.  It fails if the receiver is dropped, and else
      changes nothing. */
  lemma LaterPoll<V>(n: nat, acts: seq<Action<V>>, c: Channel<V>, id: Id, w: Waker)
    requires Reachable(n, acts, c) && id in c.senders && c.senders[id].Parked?
    ensures SenderStep(c, id, Poll(w)).Some?
    ensures var v, d := c.senders[id].v, SenderStep(c, id, Poll(w)).value;
            && OnlySender(c, d, id) && d.slots == c.slots && d.sent == c.sent
            && (d.senders[id].Writing? <==> id !in Ids(c.sh.waiters) && !c.sh.receiverDropped)
            && (d.senders[id].Parked? <==> id in Ids(c.sh.waiters) && !c.sh.receiverDropped)
            && (if d.senders[id].Writing? then
                  && id in c.sh.cells && d.senders[id] == Writing(v, c.sh.cells[id])
                  && d.sh == c.sh.(cells := c.sh.cells - {id})
                else if d.senders[id].Parked? then d == c
                else d.senders[id] == Unwinding(Some(v)) && d.sh == c.sh)
  {
    ReachableInv(n, acts, c);
    assert SenderQueueOk(c, id);
    if id in Ids(c.sh.waiters) {
      var x :| x in c.sh.waiters && x.id == id;
    }
  }

  /** A `send_footer` that nobody interrupts. */
  function FooterCall<V>(c: Channel<V>, id: Id): Option<Channel<V>> {
    match SenderStep(c, id, Write)
    case None => None
    case Some(m) =>
      match SenderStep(m, id, Push)
      case None => None
      case Some(d) => SenderStep(d, id, Wake)
  }

  /** The value is in the slot, the slot is the last of the ready queue, and the stored waker is called. */
  ghost predicate Published<V>(c: Channel<V>, id: Id, v: V, slot: nat, d: Channel<V>)
    requires slot < |c.slots|
  {
    && OnlySender(c, d, id) && id in d.senders && d.senders[id] == Idle
    && d.slots == c.slots[slot := Init(v)] && d.sent == c.sent + [v]
    && d.sh == c.sh.(readyq := c.sh.readyq + [slot], receiverWaker := None,
                     log := c.sh.log + if c.sh.receiverWaker.Some? then [c.sh.receiverWaker.value] else [])
  }

  lemma FooterPublishes<V>(c: Channel<V>, id: Id, v: V, slot: nat)
    requires id in c.senders && c.senders[id] == Writing(v, slot) && slot < |c.slots|
    ensures FooterCall(c, id).Some? && Published(c, id, v, slot, FooterCall(c, id).value)
  {
    var c1 := c.(senders := c.senders[id := Written(v, slot)], slots := c.slots[slot := Init(v)]);
    var c2 := c1.(senders := c.senders[id := Notifying], sent := c.sent + [v],
                  sh := c.sh.(readyq := c.sh.readyq + [slot]));
    assert SenderStep(c, id, Write) == Some(c1);
    assert SenderStep(c1, id, Push) == Some(c2) by {
      assert c1.senders[id := Notifying] == c2.senders;
    }
  }

  /** The end of `send` and `try_send`. */
  lemma CommitPublishes<V>(n: nat, acts: seq<Action<V>>, c: Channel<V>, id: Id, v: V, slot: nat)
    requires Reachable(n, acts, c) && id in c.senders && c.senders[id] == Writing(v, slot)
    ensures slot < |c.slots| && FooterCall(c, id).Some? && Published(c, id, v, slot, FooterCall(c, id).value)
  {
    ReachableInv(n, acts, c);
    assert SenderSlotOk(c, id);
    FooterPublishes(c, id, v, slot);
  }

  /** The dropper of a `send` that nobody interrupts. */
  function DropperCall<V>(c: Channel<V>, id: Id): Option<Channel<V>> {
    match SenderStep(c, id, Unlink)
    case None => None
    case Some(m) =>
      match SenderStep(m, id, TakeCell)
      case None => None
      case Some(d) => if id in d.senders && d.senders[id].Returning? then SenderStep(d, id, GiveBack) else Some(d)
  }

  /** It takes the sender off the wait queue and leaves nothing in its cell: a slot it was granted goes on.  The value
      comes back with `NoReceiver` unless the future was cancelled. */
  lemma DropperCleansUp<V>(n: nat, acts: seq<Action<V>>, c: Channel<V>, id: Id, back: Option<V>)
    requires Reachable(n, acts, c) && id in c.senders && c.senders[id] == Unwinding(back)
    ensures DropperCall(c, id).Some?
    ensures var d := DropperCall(c, id).value;
            && OnlySender(c, d, id) && d.slots == c.slots && d.sent == c.sent
            && d.senders[id] == (if back.Some? then Failed(NoReceiver(back.value)) else Idle)
            && id !in Ids(d.sh.waiters) && id !in d.sh.cells
            && if id in c.sh.cells then GivenUp(c.sh.(cells := c.sh.cells - {id}), d.sh, c.sh.cells[id])
               else d.sh == c.sh.(waiters := d.sh.waiters) && Ids(d.sh.waiters) == Ids(c.sh.waiters) - {id}
  {
    ReachableInv(n, acts, c);
    assert SenderQueueOk(c, id);
    if id in c.sh.cells {
      DropperPassesOn(c, id, back);
    } else {
      DropperUnlinks(c, id, back);
    }
  }

  lemma DropperUnlinks<V>(c: Channel<V>, id: Id, back: Option<V>)
    requires QueueOk(c) && id in c.senders && c.senders[id] == Unwinding(back) && id !in c.sh.cells
    ensures DropperCall(c, id).Some?
    ensures var d := DropperCall(c, id).value;
            && d == c.(sh := c.sh.(waiters := d.sh.waiters), senders := c.senders[id := AfterDropper(back)])
            && Ids(d.sh.waiters) == Ids(c.sh.waiters) - {id}
  {
    IdsWithout(c.sh.waiters, id);
    var m := c.(sh := c.sh.(waiters := Without(c.sh.waiters, id)), senders := c.senders[id := Unlinked(back)]);
    assert SenderStep(c, id, SenderAction.Unlink) == Some(m);
    assert m.senders[id := AfterDropper(back)] == c.senders[id := AfterDropper(back)];
  }

  lemma DropperPassesOn<V>(c: Channel<V>, id: Id, back: Option<V>)
    requires QueueOk(c) && id in c.senders && c.senders[id] == Unwinding(back) && id in c.sh.cells
    ensures DropperCall(c, id).Some?
    ensures var d := DropperCall(c, id).value;
            && d == c.(sh := d.sh, senders := d.senders) && d.senders == c.senders[id := AfterDropper(back)]
            && id !in Ids(d.sh.waiters) && id !in d.sh.cells
            && GivenUp(c.sh.(cells := c.sh.cells - {id}), d.sh, c.sh.cells[id])
  {
    NotListed(c, id);
    WithoutAbsent(c.sh.waiters, id);
    var slot, s := c.sh.cells[id], c.sh.(cells := c.sh.cells - {id});
    var m := c.(senders := c.senders[id := Unlinked(back)]);
    var d := c.(sh := s, senders := c.senders[id := Returning(slot, back)]);
    assert SenderStep(c, id, SenderAction.Unlink) == Some(m);
    assert SenderStep(m, id, SenderAction.TakeCell) == Some(d) by {
      assert m.senders[id := Returning(slot, back)] == d.senders;
    }
    assert d.senders[id := AfterDropper(back)] == c.senders[id := AfterDropper(back)];
    GivenToAnother(s, id, slot);
  }

  lemma GivenToAnother(s: Shared, id: Id, slot: nat)
    requires Distinct(s.waiters) && id !in Ids(s.waiters) && id !in s.cells
    ensures var t := ReturnFreeSlot(s, slot); GivenUp(s, t, slot) && id !in Ids(t.waiters) && id !in t.cells
  {
    if s.waiters != [] {
      assert s.waiters[0] in s.waiters && s.waiters[0].id in Ids(s.waiters);
      IdsPop(s.waiters);
    }
  }

  lemma NotListed<V>(c: Channel<V>, id: Id)
    requires QueueOk(c) && id in c.sh.cells
    ensures id !in Ids(c.sh.waiters)
  {
    assert forall w :: w in c.sh.waiters ==> LinkOf(c, w);
  }

  /** A pending `send` can be dropped at any time; a dropped one that was not polled leaves no trace. */
  lemma CancelBegins<V>(c: Channel<V>, id: Id)
    requires id in c.senders && (c.senders[id].Started? || c.senders[id].Parked?)
    ensures SenderStep(c, id, Cancel) ==
            Some(c.(senders := c.senders[id := if c.senders[id].Started? then Idle else Unwinding(None)]))
  {
  }

  // ----- What becomes of a value

  /** The value that the call of this handle carries. */
  function Carried<V>(pc: SenderPc<V>): Option<V> {
    match pc
    case TrySawNoWaiter(v) => Some(v)
    case TrySawOpen(v) => Some(v)
    case Started(v) => Some(v)
    case Parked(v, _, _, _) => Some(v)
    case Writing(v, _) => Some(v)
    case Written(v, _) => Some(v)
    case Unwinding(back) => back
    case Unlinked(back) => back
    case Returning(_, back) => back
    case Failed(err) => Some(err.v)
    case _ => None
  }

  /** A value in a call stays the same until it is committed (exactly once, as the next of `sent`), returned in an error
      or dropped with a cancelled future; nothing else is ever committed. */
  lemma ValueKept<V>(c: Channel<V>, id: Id, a: SenderAction<V>, d: Channel<V>)
    requires SenderStep(c, id, a) == Some(d)
    ensures a.Push? ==> Carried(c.senders[id]).Some?
    ensures d.sent == if a.Push? then c.sent + [Carried(c.senders[id]).value] else c.sent
    ensures Carried(c.senders[id]).Some? && !a.Push? && !a.Return? && !a.Cancel? ==>
              id in d.senders && Carried(d.senders[id]) == Carried(c.senders[id])
    ensures Carried(c.senders[id]).None? && id in d.senders ==>
              Carried(d.senders[id]) == if a.TrySend? || a.Send? then Some(a.v) else None
    ensures a.Push? || a.Return? || a.Cancel? ==> id in d.senders && Carried(d.senders[id]) == None
    ensures forall x :: x != id && x in c.senders ==> x in d.senders && d.senders[x] == c.senders[x]
  {
  }

  // ----- `try_recv` and `recv`

  /** A `try_recv` that nobody interrupts, up to its answer; as part of a `recv` it ends waiting instead of empty. */
  function TryRecvCall<V>(c: Channel<V>): Option<Channel<V>> {
    match ReceiverStep(c, Pop)
    case None => None
    case Some(m) =>
      if m.receiver.Reading? then
        match ReceiverStep(m, Read)
        case None => None
        case Some(d) => ReceiverStep(d, HandBack)
      else ReceiverStep(m, CheckClosed)
  }

  /** The pop finds a message if and only if there is one, and it is the next of the committed values. */
  lemma PopFindsNext<V>(n: nat, acts: seq<Action<V>>, c: Channel<V>)
    requires Reachable(n, acts, c) && (c.receiver.Ready? || c.receiver.Registered?)
    ensures ReceiverStep(c, Pop).Some?
    ensures var d := ReceiverStep(c, Pop).value;
            && d.senders == c.senders && d.slots == c.slots && d.sent == c.sent && d.received == c.received
            && (d.receiver.Reading? <==> c.sh.readyq != [])
            && (if d.receiver.Reading? then
                  && d.sh == c.sh.(readyq := c.sh.readyq[1..]) && d.receiver.slot == c.sh.readyq[0]
                  && |c.received| < |c.sent| && d.receiver.slot < |c.slots|
                  && c.slots[d.receiver.slot] == Init(c.sent[|c.received|])
                else d.receiver.SawEmpty? && d.sh == c.sh && c.received == c.sent)
  {
    ReachableInv(n, acts, c);
    var q := Outstanding(c.receiver, c.sh.readyq);
    assert q == c.sh.readyq && |q| == |c.sent[|c.received|..]|;
    if q != [] {
      assert c.sent[|c.received|..][0] == c.sent[|c.received|];
    }
  }

  /** With a message queued it is received, and its slot goes to the first waiter or is free; with none the answer is
      `NoSender` if no handle is left, and else `Empty`, and nothing changes. */
  lemma TryRecvAnswers<V>(n: nat, acts: seq<Action<V>>, c: Channel<V>)
    requires Reachable(n, acts, c) && (c.receiver.Ready? || c.receiver.Registered?)
    ensures TryRecvCall(c).Some?
    ensures var d := TryRecvCall(c).value;
            && d.senders == c.senders && d.sent == c.sent
            && (if c.sh.readyq != [] then
                  && |c.received| < |c.sent| && d.received == c.received + [c.sent[|c.received|]]
                  && d.receiver == Ready && c.sh.readyq[0] < |c.slots|
                  && d.slots == c.slots[c.sh.readyq[0] := Uninit]
                  && GivenUp(c.sh.(readyq := c.sh.readyq[1..]), d.sh, c.sh.readyq[0])
                else
                  && d.received == c.received && d.slots == c.slots && d.sh == c.sh
                  && d.receiver == if c.sh.numSenders == 0 then SawNoSender(true)
                                   else if c.receiver.Registered? then Waiting(c.receiver.reg) else Ready)
  {
    PopFindsNext(n, acts, c);
  }

  /** `recv` first stores its waker; another one that was stored is called. */
  lemma RecvRegisters<V>(c: Channel<V>, w: Waker)
    requires c.receiver.Ready? || c.receiver.Waiting?
    ensures ReceiverStep(c, ReceiverAction.Register(w)).Some?
    ensures var d := ReceiverStep(c, ReceiverAction.Register(w)).value;
            && d.receiver == Registered(Reg(w, |d.sh.log|))
            && d == c.(receiver := d.receiver, sh := c.sh.(receiverWaker := Some(w), log := d.sh.log))
            && d.sh.log == c.sh.log + match c.sh.receiverWaker
                                      case Some(x) => if x == w then [] else [x]
                                      case None => []
  {
  }

  /** The answers are acknowledged, and a pending `recv` can be dropped. */
  lemma ReceiverRests<V>(c: Channel<V>)
    ensures c.receiver.SawNoSender? ==> ReceiverStep(c, Acknowledge) == Some(c.(receiver := Ready))
    ensures c.receiver.Waiting? ==> ReceiverStep(c, StopWaiting) == Some(c.(receiver := Ready))
  {
  }

  // ----- Handles

  /** `clone` makes one more idle handle, `drop` removes one; the last one to go wakes the receiver. */
  lemma HandlesComeAndGo<V>(c: Channel<V>, id: Id, copy: Id)
    requires HandlesOk(c) && id in c.senders && c.senders[id].Idle? && copy !in c.senders
    ensures SenderStep(c, id, Clone(copy)) ==
            Some(c.(senders := c.senders[copy := Idle], sh := c.sh.(numSenders := c.sh.numSenders + 1)))
    ensures SenderStep(c, id, Drop).Some?
    ensures var d := SenderStep(c, id, Drop).value;
            && d.sh == c.sh.(numSenders := c.sh.numSenders - 1)
            && d == c.(sh := d.sh, senders := if d.sh.numSenders == 0 then c.senders[id := DropNotifying]
                                              else c.senders - {id})
  {
    assert id in Handles(c);
    if c.sh.numSenders == 0 { NoHandlesNoSteps(c, id); }
  }

  lemma LastHandleWakes<V>(c: Channel<V>, id: Id)
    requires id in c.senders && c.senders[id].DropNotifying?
    ensures SenderStep(c, id, DropWake).Some?
    ensures var d := SenderStep(c, id, DropWake).value;
            d == c.(senders := c.senders - {id},
                    sh := c.sh.(receiverWaker := None,
                                log := c.sh.log + match c.sh.receiverWaker
                                                  case Some(w) => [w]
                                                  case None => []))
  {
  }

  // ----- `Receiver::drop`

  /** The two loops of `Receiver::drop` when nobody interrupts them. */
  function DropLoops<V>(c: Channel<V>): Option<Channel<V>>
    decreases if c.receiver.Draining? || c.receiver.DrainReading? then 1 else 0,
              if c.receiver.Draining? || c.receiver.DrainReading? then |c.sh.readyq| else |c.sh.waiters|,
              match c.receiver
              case Draining => 1
              case PoppingWaiters => 1
              case Gone => 0
              case _ => 2
  {
    match c.receiver
    case Draining => (match ReceiverStep(c, DrainPop) case Some(d) => DropLoops(d) case None => None)
    case DrainReading(_) => (match ReceiverStep(c, DrainRead) case Some(d) => DropLoops(d) case None => None)
    case PoppingWaiters =>
      (match ReceiverStep(c, ReceiverAction.PopWaiter) case Some(d) => DropLoops(d) case None => None)
    case WakingWaiter(_) => (match ReceiverStep(c, WakeWaiter) case Some(d) => DropLoops(d) case None => None)
    case _ => Some(c)
  }

  lemma {:induction false} AllWoken<V>(c: Channel<V>)
    requires c.receiver.PoppingWaiters?
    ensures DropLoops(c) ==
            Some(c.(receiver := Gone, sh := c.sh.(waiters := [], log := c.sh.log + WakersOf(c.sh.waiters))))
    decreases |c.sh.waiters|
  {
    if c.sh.waiters == [] {
      assert c.sh.log + [] == c.sh.log;
      assert ReceiverStep(c, ReceiverAction.PopWaiter) == Some(c.(receiver := Gone));
    } else {
      var w := c.sh.waiters[0];
      var m := c.(receiver := WakingWaiter(w.waker), sh := c.sh.(waiters := c.sh.waiters[1..]));
      var d := c.(sh := c.sh.(waiters := c.sh.waiters[1..], log := c.sh.log + [w.waker]));
      assert ReceiverStep(c, ReceiverAction.PopWaiter) == Some(m) && ReceiverStep(m, WakeWaiter) == Some(d);
      assert DropLoops(c) == DropLoops(m) == DropLoops(d);
      AllWoken(d);
      assert c.sh.log + [w.waker] + WakersOf(c.sh.waiters[1..]) == c.sh.log + WakersOf(c.sh.waiters);
    }
  }

  /** Every slot of `q` is emptied. */
  function Emptied<V>(slots: seq<Slot<V>>, q: seq<nat>): seq<Slot<V>>
    requires forall k :: 0 <= k < |q| ==> q[k] < |slots|
  {
    seq(|slots|, i requires 0 <= i < |slots| => if i in q then Uninit else slots[i])
  }

  lemma EmptyLast<V>(slots: seq<Slot<V>>, q: seq<nat>)
    requires q != [] && forall k :: 0 <= k < |q| ==> q[k] < |slots|
    ensures Emptied(slots[q[|q| - 1] := Uninit], q[..|q| - 1]) == Emptied(slots, q)
  {
    assert q == q[..|q| - 1] + [q[|q| - 1]];
  }

  /** The channel when the last message of the ready queue has been drained. */
  function DrainedLast<V>(c: Channel<V>): Channel<V>
    requires c.sh.readyq != [] && c.sh.readyq[|c.sh.readyq| - 1] < |c.slots|
  {
    var last := |c.sh.readyq| - 1;
    c.(slots := c.slots[c.sh.readyq[last] := Uninit], retired := c.retired + {c.sh.readyq[last]},
       sh := c.sh.(readyq := c.sh.readyq[..last]))
  }

  lemma LastIsDrained<V>(c: Channel<V>)
    requires c.receiver.Draining? && c.sh.readyq != [] && AllFull(c, c.sh.readyq)
    ensures DropLoops(c) == DropLoops(DrainedLast(c))
  {
    var last := |c.sh.readyq| - 1;
    var m := c.(receiver := DrainReading(c.sh.readyq[last]), sh := c.sh.(readyq := c.sh.readyq[..last]));
    assert ReceiverStep(c, DrainPop) == Some(m) && ReceiverStep(m, DrainRead) == Some(DrainedLast(c));
    assert DropLoops(c) == DropLoops(m);
  }

  /** The channel when both loops are over. */
  function DropEnd<V>(c: Channel<V>): Channel<V>
    requires forall k :: 0 <= k < |c.sh.readyq| ==> c.sh.readyq[k] < |c.slots|
  {
    c.(receiver := Gone, slots := Emptied(c.slots, c.sh.readyq), retired := c.retired + (set i | i in c.sh.readyq),
       sh := c.sh.(readyq := [], waiters := [], log := c.sh.log + WakersOf(c.sh.waiters)))
  }

  lemma SameEnd<V>(c: Channel<V>)
    requires c.sh.readyq != [] && AllFull(c, c.sh.readyq) && NoDup(c.sh.readyq)
    ensures var d := DrainedLast(c); AllFull(d, d.sh.readyq) && NoDup(d.sh.readyq) && DropEnd(d) == DropEnd(c)
  {
    var q, last, d := c.sh.readyq, |c.sh.readyq| - 1, DrainedLast(c);
    PopBack(q);
    forall k | 0 <= k < last ensures d.slots[q[..last][k]].Init? {
      assert q[k] != q[last];
    }
    EmptyLast(c.slots, q);
    assert q == q[..last] + [q[last]];
    assert d.retired + (set i | i in q[..last]) == c.retired + (set i | i in q);
  }

  lemma {:induction false} AllDrained<V>(c: Channel<V>)
    requires c.receiver.Draining? && AllFull(c, c.sh.readyq) && NoDup(c.sh.readyq)
    ensures DropLoops(c) == Some(DropEnd(c))
    decreases |c.sh.readyq|
  {
    if c.sh.readyq == [] {
      NoneDrained(c);
    } else {
      LastIsDrained(c);
      SameEnd(c);
      AllDrained(DrainedLast(c));
    }
  }

  lemma NoneDrained<V>(c: Channel<V>)
    requires c.receiver.Draining? && c.sh.readyq == []
    ensures DropLoops(c) == Some(DropEnd(c))
  {
    var m := c.(receiver := PoppingWaiters);
    assert ReceiverStep(c, DrainPop) == Some(m);
    AllWoken(m);
    assert Emptied(c.slots, c.sh.readyq) == c.slots;
    assert c.retired + (set i | i in c.sh.readyq) == c.retired;
    assert DropLoops(m) == Some(DropEnd(c));
  }

  /** A drop that nobody interrupts: the flag is set, every queued message is dropped and its slot retired, and
      everybody who waits is woken, in arrival order. */
  lemma ReceiverDropCleansUp<V>(n: nat, acts: seq<Action<V>>, c: Channel<V>)
    requires Reachable(n, acts, c) && c.receiver.Ready?
    ensures ReceiverStep(c, DropReceiver).Some? && AllFull(c, c.sh.readyq)
    ensures DropLoops(ReceiverStep(c, DropReceiver).value) ==
            Some(c.(receiver := Gone, slots := Emptied(c.slots, c.sh.readyq),
                    retired := c.retired + (set i | i in c.sh.readyq),
                    sh := c.sh.(receiverDropped := true, readyq := [], waiters := [],
                                log := c.sh.log + WakersOf(c.sh.waiters))))
  {
    ReachableInv(n, acts, c);
    var o: seq<Place> :| OwnedBy(c, o);
    AllDrained(ReceiverStep(c, DropReceiver).value);
  }
}
