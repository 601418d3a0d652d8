/** Slot ownership: every index lives in exactly one place. */
module ChannelOwnership {
  import opened Wrappers
  import opened ChannelCore
  import opened ChannelProtocol

  datatype Place = InFreeq | InReadyq | InCell(id: Id) | InHand(id: Id) | AtReceiver | Retired

  ghost predicate NoDup(q: seq<nat>) {
    forall i, j :: 0 <= i < j < |q| ==> q[i] != q[j]
  }

  /** The slot index a sender holds in a local variable. */
  function Hand<V>(pc: SenderPc<V>): Option<nat> {
    match pc
    case Returning(slot, _) => Some(slot)
    case Writing(_, slot) => Some(slot)
    case Written(_, slot) => Some(slot)
    case _ => None
  }

  function HandOf<V>(c: Channel<V>, id: Id): Option<nat> {
    if id in c.senders then Hand(c.senders[id]) else None
  }

  /** The slot index the receiver holds in a local variable. */
  function ReceiverHand(pc: ReceiverPc): Option<nat> {
    match pc
    case Reading(slot) => Some(slot)
    case HandingBack(slot) => Some(slot)
    case DrainReading(slot) => Some(slot)
    case _ => None
  }

  /** `o` names the place of every slot: what is held is in range and it is held exactly where `o` says. */
  ghost predicate OwnedBy<V>(c: Channel<V>, o: seq<Place>) {
    && |o| == c.n == |c.slots|
    && NoDup(c.sh.freeq) && NoDup(c.sh.readyq)
    && (forall i :: i in c.sh.freeq ==> i < c.n && o[i] == InFreeq)
    && (forall i :: i in c.sh.readyq ==> i < c.n && o[i] == InReadyq)
    && (forall i :: i in c.retired ==> i < c.n && o[i] == Retired)
    && (forall id :: id in c.sh.cells ==> c.sh.cells[id] < c.n && o[c.sh.cells[id]] == InCell(id))
    && (forall id :: HandOf(c, id).Some? ==> HandOf(c, id).value < c.n && o[HandOf(c, id).value] == InHand(id))
    && (ReceiverHand(c.receiver).Some? ==>
          ReceiverHand(c.receiver).value < c.n && o[ReceiverHand(c.receiver).value] == AtReceiver)
    && (forall i: nat :: i < c.n ==> Holds(c, o[i], i))
  }

  /** Whether slot `i` is at place `p` in state `c`. */
  ghost predicate Holds<V>(c: Channel<V>, p: Place, i: nat) {
    match p
    case InFreeq => i in c.sh.freeq
    case InReadyq => i in c.sh.readyq
    case InCell(id) => id in c.sh.cells && c.sh.cells[id] == i
    case InHand(id) => HandOf(c, id) == Some(i)
    case AtReceiver => ReceiverHand(c.receiver) == Some(i)
    case Retired => i in c.retired
  }

  ghost predicate Owned<V>(c: Channel<V>) {
    exists o :: OwnedBy(c, o)
  }

  lemma PopFront(q: seq<nat>)
    requires q != [] && NoDup(q)
    ensures NoDup(q[1..]) && forall i :: i in q[1..] <==> i in q && i != q[0]
  {
    assert q == [q[0]] + q[1..];
  }

  lemma PopBack(q: seq<nat>)
    requires q != [] && NoDup(q)
    ensures var b := |q| - 1; NoDup(q[..b]) && forall i :: i in q[..b] <==> i in q && i != q[b]
  {
    assert q == q[..|q| - 1] + [q[|q| - 1]];
  }

  lemma PushBack(q: seq<nat>, x: nat)
    requires NoDup(q) && x !in q
    ensures NoDup(q + [x]) && forall i :: i in q + [x] <==> i in q || i == x
  {
  }

  /** No waiter holds a slot. */
  ghost predicate WaitersEmptyHanded(s: Shared) {
    forall i :: 0 <= i < |s.waiters| ==> s.waiters[i].id !in s.cells
  }

  /** Steps that leave every slot where it is. */
  lemma StillOwned<V>(c: Channel<V>, c': Channel<V>, o: seq<Place>)
    requires OwnedBy(c, o)
    requires c'.n == c.n && |c'.slots| == |c.slots| && c'.retired == c.retired
    requires c'.sh.freeq == c.sh.freeq && c'.sh.readyq == c.sh.readyq && c'.sh.cells == c.sh.cells
    requires forall id :: HandOf(c', id) == HandOf(c, id)
    requires ReceiverHand(c'.receiver) == ReceiverHand(c.receiver)
    ensures OwnedBy(c', o)
  {
    forall i: nat | i < c.n ensures Holds(c', o[i], i) {
      assert Holds(c, o[i], i);
    }
  }

  /** The hands of the other senders after sender `id` took, put down or passed on a slot. */
  lemma HandsMoved<V>(c: Channel<V>, c': Channel<V>, id: Id, o: seq<Place>, o': seq<Place>)
    requires OwnedBy(c, o) && |o'| == c.n
    requires forall x :: x != id ==> HandOf(c', x) == HandOf(c, x)
    requires forall i :: 0 <= i < c.n && o[i].InHand? && o[i] != InHand(id) ==> o'[i] == o[i]
    requires HandOf(c', id).Some? ==> HandOf(c', id).value < c.n && o'[HandOf(c', id).value] == InHand(id)
    ensures forall x :: HandOf(c', x).Some? ==> HandOf(c', x).value < c.n && o'[HandOf(c', x).value] == InHand(x)
  {
    forall x | HandOf(c', x).Some? ensures HandOf(c', x).value < c.n && o'[HandOf(c', x).value] == InHand(x) {
      if x != id { assert HandOf(c, x).Some?; }
    }
  }

  /** A free slot becomes the sender's. */
  lemma FreeTakenOwned<V>(c: Channel<V>, id: Id, sh: Shared, pc: SenderPc<V>, slot: nat)
    requires Owned(c) && HandOf(c, id) == None && Hand(pc) == Some(slot)
    requires sh.readyq == c.sh.readyq && sh.cells == c.sh.cells
    requires slot in c.sh.freeq && NoDup(sh.freeq)
    requires forall i :: i in sh.freeq <==> i in c.sh.freeq && i != slot
    ensures Owned(At(c, id, sh, pc))
  {
    var o :| OwnedBy(c, o);
    var c', o' := At(c, id, sh, pc), o[slot := InHand(id)];
    forall i: nat | i < c.n ensures Holds(c', o'[i], i) {
      assert Holds(c, o[i], i);
    }
    HandsMoved(c, c', id, o, o');
    assert OwnedBy(c', o');
  }

  /** A granted slot becomes the sender's. */
  lemma CellTakenOwned<V>(c: Channel<V>, id: Id, sh: Shared, pc: SenderPc<V>)
    requires Owned(c) && HandOf(c, id) == None && id in c.sh.cells && Hand(pc) == Some(c.sh.cells[id])
    requires sh.freeq == c.sh.freeq && sh.readyq == c.sh.readyq && sh.cells == c.sh.cells - {id}
    ensures Owned(At(c, id, sh, pc))
  {
    var o :| OwnedBy(c, o);
    var c', o' := At(c, id, sh, pc), o[c.sh.cells[id] := InHand(id)];
    forall i: nat | i < c.n ensures Holds(c', o'[i], i) {
      assert Holds(c, o[i], i);
    }
    HandsMoved(c, c', id, o, o');
    assert OwnedBy(c', o');
  }

  /** `return_free_slot`, by a sender: the slot's one place is then the cell of the first waiter, or `freeq` if nobody
      waits. */
  lemma GivenBackOwned<V>(c: Channel<V>, id: Id, slot: nat, pc: SenderPc<V>)
    requires Hand(pc) == None && Owned(c) && WaitersEmptyHanded(c.sh) && HandOf(c, id) == Some(slot)
    ensures Owned(At(c, id, ReturnFreeSlot(c.sh, slot), pc))
    ensures Holds(At(c, id, ReturnFreeSlot(c.sh, slot), pc),
                  if c.sh.waiters != [] then InCell(c.sh.waiters[0].id) else InFreeq, slot)
  {
    var o :| OwnedBy(c, o);
    var c' := At(c, id, ReturnFreeSlot(c.sh, slot), pc);
    PushBack(c.sh.freeq, slot);
    var o' := o[slot := if c.sh.waiters != [] then InCell(c.sh.waiters[0].id) else InFreeq];
    forall i: nat | i < c.n ensures Holds(c', o'[i], i) {
      assert Holds(c, o[i], i);
    }
    HandsMoved(c, c', id, o, o');
    assert OwnedBy(c', o');
  }

  lemma PushedOwned<V>(c: Channel<V>, id: Id, slot: nat, sent: seq<V>)
    requires Owned(c) && HandOf(c, id) == Some(slot)
    ensures Owned(At(c, id, ChannelCore.PushReady(c.sh, slot), Notifying).(sent := sent))
  {
    var o :| OwnedBy(c, o);
    PushBack(c.sh.readyq, slot);
    var c', o' := At(c, id, ChannelCore.PushReady(c.sh, slot), Notifying).(sent := sent), o[slot := InReadyq];
    forall i: nat | i < c.n ensures Holds(c', o'[i], i) {
      assert Holds(c, o[i], i);
    }
    HandsMoved(c, c', id, o, o');
    assert OwnedBy(c', o');
  }

  lemma PolledOwned<V>(c: Channel<V>, id: Id, waker: Waker)
    requires Owned(c) && SenderStep(c, id, Poll(waker)).Some?
    ensures Owned(SenderStep(c, id, Poll(waker)).value)
  {
    var c' := SenderStep(c, id, Poll(waker)).value;
    if c'.senders[id].Writing? {
      if c.senders[id].Started? {
        PopBack(c.sh.freeq);
        assert c.sh.freeq[|c.sh.freeq| - 1] in c.sh.freeq;
        FreeTakenOwned(c, id, c'.sh, c'.senders[id], c'.senders[id].slot);
      } else {
        CellTakenOwned(c, id, c'.sh, c'.senders[id]);
      }
    } else {
      var o :| OwnedBy(c, o);
      StillOwned(c, c', o);
    }
  }

  lemma SenderStepOwned<V>(c: Channel<V>, id: Id, a: SenderAction<V>)
    requires Owned(c) && SenderStep(c, id, a).Some? && WaitersEmptyHanded(c.sh)
    ensures Owned(SenderStep(c, id, a).value)
  {
    var c' := SenderStep(c, id, a).value;
    if a.TryTake? && c.sh.freeq != [] {
      PopFront(c.sh.freeq);
      assert c.sh.freeq[0] in c.sh.freeq;
      FreeTakenOwned(c, id, c'.sh, c'.senders[id], c.sh.freeq[0]);
    } else if a.TakeCell? && id in c.sh.cells {
      CellTakenOwned(c, id, c'.sh, c'.senders[id]);
    } else if a.Poll? {
      PolledOwned(c, id, a.waker);
    } else if a.GiveBack? {
      GivenBackOwned(c, id, c.senders[id].slot, AfterDropper(c.senders[id].back));
    } else if a.Push? {
      PushedOwned(c, id, c.senders[id].slot, c'.sent);
    } else {
      MovesNoSlot(c, id, a);
    }
  }

  /** The steps of a sender that neither take nor pass on a slot. */
  lemma MovesNoSlot<V>(c: Channel<V>, id: Id, a: SenderAction<V>)
    requires Owned(c) && SenderStep(c, id, a).Some?
    requires !a.Poll? && !a.GiveBack? && !a.Push?
    requires (a.TryTake? ==> c.sh.freeq == []) && (a.TakeCell? ==> id !in c.sh.cells)
    ensures Owned(SenderStep(c, id, a).value)
  {
    var o :| OwnedBy(c, o);
    StillOwned(c, SenderStep(c, id, a).value, o);
  }

  /** `pop_front` or `pop_back` on the ready queue. */
  lemma PoppedOwned<V>(c: Channel<V>, readyq: seq<nat>, pc: ReceiverPc, slot: nat)
    requires Owned(c) && ReceiverHand(c.receiver) == None && ReceiverHand(pc) == Some(slot)
    requires slot in c.sh.readyq && NoDup(readyq)
    requires forall i :: i in readyq <==> i in c.sh.readyq && i != slot
    ensures Owned(c.(sh := c.sh.(readyq := readyq), receiver := pc))
  {
    var o :| OwnedBy(c, o);
    var c', o' := c.(sh := c.sh.(readyq := readyq), receiver := pc), o[slot := AtReceiver];
    StillHeld(c, c');
    forall i: nat | i < c.n ensures Holds(c', o'[i], i) {
      assert Holds(c, o[i], i);
    }
    assert OwnedBy(c', o');
  }

  lemma StillHeld<V>(c: Channel<V>, c': Channel<V>)
    requires c'.senders == c.senders
    ensures forall id :: HandOf(c', id) == HandOf(c, id)
  {
  }

  /** `return_free_slot`, by the receiver. */
  lemma HandedBackOwned<V>(c: Channel<V>, slot: nat)
    requires Owned(c) && WaitersEmptyHanded(c.sh) && ReceiverHand(c.receiver) == Some(slot)
    ensures Owned(c.(sh := ReturnFreeSlot(c.sh, slot), receiver := Ready))
  {
    var o :| OwnedBy(c, o);
    var c' := c.(sh := ReturnFreeSlot(c.sh, slot), receiver := Ready);
    StillHeld(c, c');
    PushBack(c.sh.freeq, slot);
    var o' := o[slot := if c.sh.waiters != [] then InCell(c.sh.waiters[0].id) else InFreeq];
    forall i: nat | i < c.n ensures Holds(c', o'[i], i) {
      assert Holds(c, o[i], i);
    }
    assert OwnedBy(c', o');
  }

  lemma RetiredOwned<V>(c: Channel<V>, slots: seq<Slot<V>>, slot: nat)
    requires Owned(c) && ReceiverHand(c.receiver) == Some(slot) && |slots| == |c.slots|
    ensures Owned(c.(slots := slots, receiver := Draining, retired := c.retired + {slot}))
  {
    var o :| OwnedBy(c, o);
    var c' := c.(slots := slots, receiver := Draining, retired := c.retired + {slot});
    StillHeld(c, c');
    var o' := o[slot := Retired];
    forall i: nat | i < c.n ensures Holds(c', o'[i], i) {
      assert Holds(c, o[i], i);
    }
    assert OwnedBy(c', o');
  }

  /** `readyq.pop_front()` and `readyq.pop_back()`. */
  lemma ReadyTakenOwned<V>(c: Channel<V>, a: ReceiverAction, c': Channel<V>)
    requires Owned(c) && (a.Pop? || a.DrainPop?) && c.sh.readyq != [] && ReceiverStep(c, a) == Some(c')
    ensures Owned(c')
  {
    PopFront(c.sh.readyq);
    PopBack(c.sh.readyq);
    assert c.sh.readyq[0] in c.sh.readyq && c.sh.readyq[|c.sh.readyq| - 1] in c.sh.readyq;
    PoppedOwned(c, c'.sh.readyq, c'.receiver, c'.receiver.slot);
  }

  lemma ReceiverStepOwned<V>(c: Channel<V>, a: ReceiverAction)
    requires Owned(c) && ReceiverStep(c, a).Some? && WaitersEmptyHanded(c.sh)
    ensures Owned(ReceiverStep(c, a).value)
  {
    var c' := ReceiverStep(c, a).value;
    if (a.Pop? || a.DrainPop?) && c.sh.readyq != [] {
      ReadyTakenOwned(c, a, c');
    } else if a.HandBack? {
      HandedBackOwned(c, c.receiver.slot);
    } else if a.DrainRead? {
      RetiredOwned(c, c'.slots, c.receiver.slot);
    } else {
      var o :| OwnedBy(c, o);
      StillOwned(c, c', o);
    }
  }
}
