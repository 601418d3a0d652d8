/** When `NoSender` can be reported with a message queued: `try_recv` looks at the ready queue and at the sender count
    in two critical sections, and everything that the senders can do may happen in between. */
module ChannelClosing {
  import opened Wrappers
  import opened ChannelCore
  import opened ChannelProtocol
  import opened ChannelOwnership
  import opened ChannelQueue
  import opened ChannelDelivery
  import opened ChannelWakeups
  import opened ChannelTheorems

  ghost predicate SendersOnly<V>(acts: seq<Action<V>>) {
    forall i :: 0 <= i < |acts| ==> acts[i].BySender?
  }

  /** Steps of senders lead from `c` to `d`. */
  ghost predicate Leads<V(!new)>(c: Channel<V>, d: Channel<V>) {
    exists acts: seq<Action<V>> :: SendersOnly(acts) && Run(c, acts) == Some(d)
  }

  lemma LeadsStep<V(!new)>(c: Channel<V>, id: Id, a: SenderAction<V>, d: Channel<V>)
    requires SenderStep(c, id, a) == Some(d)
    ensures Leads(c, d)
  {
    var acts := [BySender(id, a)];
    assert acts[1..] == [];
    assert Run(d, []) == Some(d);
    assert Run(c, acts) == Some(d);
  }

  lemma LeadsTrans<V(!new)>(c: Channel<V>, d: Channel<V>, e: Channel<V>)
    requires Leads(c, d) && Leads(d, e)
    ensures Leads(c, e)
  {
    var xs: seq<Action<V>> :| SendersOnly(xs) && Run(c, xs) == Some(d);
    var ys: seq<Action<V>> :| SendersOnly(ys) && Run(d, ys) == Some(e);
    RunJoins(c, xs, d, ys, e);
    assert SendersOnly(xs + ys);
  }

  lemma LeadsNowhere<V(!new)>(c: Channel<V>)
    ensures Leads(c, c)
  {
    assert SendersOnly<V>([]) && Run(c, []) == Some(c);
  }

  lemma {:induction false} SendersKeepReceiver<V>(c: Channel<V>, acts: seq<Action<V>>)
    requires SendersOnly(acts) && Run(c, acts).Some?
    ensures Run(c, acts).value.receiver == c.receiver
    decreases |acts|
  {
    if acts != [] {
      var m := SenderStep(c, acts[0].id, acts[0].s).value;
      assert m.receiver == c.receiver;
      SendersKeepReceiver(m, acts[1..]);
    }
  }

  lemma LeadsInv<V(!new)>(c: Channel<V>, d: Channel<V>)
    requires Inv(c) && Leads(c, d)
    ensures Inv(d) && d.n == c.n && d.receiver == c.receiver
  {
    var acts: seq<Action<V>> :| SendersOnly(acts) && Run(c, acts) == Some(d);
    RunInv(c, acts);
    SendersKeepReceiver(c, acts);
  }

  // ----- Every handle can come to rest

  /** The number of steps until the handle is idle or gone, at most. */
  function Rank<V>(pc: SenderPc<V>): nat {
    match pc
    case Idle => 0
    case TrySawNoWaiter(_) => 6
    case TrySawOpen(_) => 5
    case Started(_) => 1
    case Parked(_, _, _, _) => 5
    case Unwinding(_) => 4
    case Unlinked(_) => 3
    case Returning(_, _) => 2
    case Failed(_) => 1
    case Writing(_, _) => 3
    case Written(_, _) => 2
    case Notifying => 1
    case DropNotifying => 1
  }

  function Finish<V>(pc: SenderPc<V>): SenderAction<V> {
    match pc
    case Idle => Drop
    case TrySawNoWaiter(_) => TryCheckOpen
    case TrySawOpen(_) => TryTake
    case Started(_) => Cancel
    case Parked(_, _, _, _) => Cancel
    case Unwinding(_) => SenderAction.Unlink
    case Unlinked(_) => SenderAction.TakeCell
    case Returning(_, _) => GiveBack
    case Failed(_) => Return
    case Writing(_, _) => Write
    case Written(_, _) => Push
    case Notifying => Wake
    case DropNotifying => DropWake
  }

  ghost predicate SameOthers<V>(c: Channel<V>, d: Channel<V>, id: Id) {
    forall x :: x != id ==> (x in d.senders <==> x in c.senders) && (x in c.senders ==> d.senders[x] == c.senders[x])
  }

  lemma FinishWriting<V>(c: Channel<V>, id: Id) returns (d: Channel<V>)
    requires id in c.senders && SenderSlotOk(c, id)
    requires var pc := c.senders[id]; pc.Writing? || pc.Written? || pc.Notifying? || pc.DropNotifying?
    ensures SenderStep(c, id, Finish(c.senders[id])) == Some(d)
    ensures SameOthers(c, d, id) && d.sh.numSenders == c.sh.numSenders
    ensures id in d.senders ==> Rank(d.senders[id]) < Rank(c.senders[id])
  {
    d := SenderStep(c, id, Finish(c.senders[id])).value;
  }

  lemma FinishStep<V>(c: Channel<V>, id: Id) returns (d: Channel<V>)
    requires id in c.senders && SenderSlotOk(c, id) && !c.senders[id].Idle?
    ensures SenderStep(c, id, Finish(c.senders[id])) == Some(d)
    ensures SameOthers(c, d, id) && d.sh.numSenders == c.sh.numSenders
    ensures id in d.senders ==> Rank(d.senders[id]) < Rank(c.senders[id])
  {
    var pc := c.senders[id];
    if pc.Writing? || pc.Written? || pc.Notifying? || pc.DropNotifying? {
      d := FinishWriting(c, id);
    } else {
      d := SenderStep(c, id, Finish(pc)).value;
    }
  }

  ghost predicate AtRest<V>(c: Channel<V>, id: Id) {
    id in c.senders ==> c.senders[id].Idle?
  }

  lemma {:induction false} Settle<V(!new)>(c: Channel<V>, id: Id) returns (d: Channel<V>)
    requires Inv(c)
    ensures Leads(c, d) && SameOthers(c, d, id) && d.sh.numSenders == c.sh.numSenders && AtRest(d, id)
    decreases if id in c.senders then Rank(c.senders[id]) else 0
  {
    if AtRest(c, id) {
      d := c;
      LeadsNowhere(c);
    } else {
      assert SenderSlotOk(c, id);
      var m := FinishStep(c, id);
      LeadsStep(c, id, Finish(c.senders[id]), m);
      LeadsInv(c, m);
      if id in m.senders {
        d := Settle(m, id);
        LeadsTrans(c, m, d);
      } else {
        d := m;
      }
    }
  }

  ghost predicate AllAtRest<V>(c: Channel<V>) {
    forall id :: id in c.senders ==> c.senders[id].Idle?
  }

  lemma {:induction false} SettleAll<V(!new)>(c: Channel<V>, busy: set<Id>) returns (d: Channel<V>)
    requires Inv(c) && forall id :: id !in busy ==> AtRest(c, id)
    ensures Leads(c, d) && d.sh.numSenders == c.sh.numSenders && AllAtRest(d)
    decreases |busy|
  {
    if busy == {} {
      d := c;
      LeadsNowhere(c);
      assert forall id :: id in c.senders ==> AtRest(c, id);
    } else {
      var id :| id in busy;
      var m := Settle(c, id);
      LeadsInv(c, m);
      forall x | x !in busy - {id} ensures AtRest(m, x) {
        assert x != id ==> AtRest(c, x);
      }
      d := SettleAll(m, busy - {id});
      LeadsTrans(c, m, d);
    }
  }

  // ----- One of them pushes a message, and all are dropped

  lemma PushOne<V(!new)>(c: Channel<V>, v: V) returns (d: Channel<V>)
    requires Inv(c) && AllAtRest(c) && c.n >= 1 && c.sh.numSenders > 0 && c.receiver.SawEmpty? && c.sh.readyq == []
    ensures Leads(c, d) && AllAtRest(d) && d.sh.numSenders == c.sh.numSenders && d.sh.readyq != []
  {
    var id := FreeHandle(c);
    var m := TrySendTakes(c, id, v);
    var takes := [BySender(id, TrySend(v)), BySender(id, TryCheckOpen), BySender(id, TryTake)];
    assert SendersOnly(takes) && Leads(c, m);
    LeadsInv(c, m);
    d := PushWritten(m, id, v);
    LeadsTrans(c, m, d);
  }

  lemma FreeHandle<V>(c: Channel<V>) returns (id: Id)
    requires Inv(c) && AllAtRest(c) && c.n >= 1 && c.sh.numSenders > 0 && c.receiver.SawEmpty? && c.sh.readyq == []
    ensures c.sh.freeq != [] && c.sh.waiters == [] && id in c.senders
  {
    AllFree(c);
    assert 0 in c.sh.freeq;
    assert Handles(c) != {};
    id :| id in Handles(c);
  }

  lemma PushWritten<V(!new)>(c: Channel<V>, id: Id, v: V) returns (d: Channel<V>)
    requires Inv(c) && id in c.senders && c.senders[id].Writing? && c.senders[id].v == v
    ensures Leads(c, d) && d.senders == c.senders[id := Idle] && d.sh.numSenders == c.sh.numSenders && d.sh.readyq != []
  {
    assert SenderSlotOk(c, id);
    d := FooterCommits(c, id, v);
    var footer: seq<Action<V>> := [BySender(id, Write), BySender(id, Push), BySender(id, Wake)];
    assert SendersOnly(footer) && Leads(c, d);
  }

  lemma {:induction false} DropAll<V(!new)>(c: Channel<V>) returns (d: Channel<V>)
    requires Inv(c) && AllAtRest(c)
    ensures Leads(c, d) && d.sh.numSenders == 0 && d.sh.readyq == c.sh.readyq
    decreases c.sh.numSenders
  {
    if c.sh.numSenders == 0 {
      d := c;
      LeadsNowhere(c);
    } else {
      assert Handles(c) != {};
      var id :| id in Handles(c);
      var m := SenderStep(c, id, Drop).value;
      LeadsStep(c, id, Drop, m);
      LeadsInv(c, m);
      if m.sh.numSenders == 0 {
        d := m;
      } else {
        d := DropAll(m);
        LeadsTrans(c, m, d);
      }
    }
  }

  /** Some steps of senders, and then the receiver's look at the sender count, end in `NoSender` with a message
      queued. */
  ghost predicate CanMislead<V(!new)>(c: Channel<V>) {
    exists m, d :: Leads(c, m) && ReceiverStep(m, CheckClosed) == Some(d) && Misled(d)
  }

  ghost predicate Misled<V>(d: Channel<V>) {
    d.receiver.SawNoSender? && d.sh.readyq != []
  }

  /** For every capacity, and whatever the senders are in the middle of: if a handle is left, they can mislead. */
  lemma HandlesCanMislead<V(!new)>(n: nat, acts: seq<Action<V>>, c: Channel<V>, v: V)
    requires n >= 1 && Reachable(n, acts, c) && c.receiver.SawEmpty? && c.sh.numSenders > 0
    ensures CanMislead(c)
  {
    ReachableInv(n, acts, c);
    var rest := SettleAll(c, c.senders.Keys);
    LeadsInv(c, rest);
    var gone := LeaveMessage(rest, v);
    LeadsTrans(c, rest, gone);
    LeadsInv(rest, gone);
    assert Misled(ReceiverStep(gone, CheckClosed).value);
  }

  lemma LeaveMessage<V(!new)>(c: Channel<V>, v: V) returns (d: Channel<V>)
    requires Inv(c) && AllAtRest(c) && c.n >= 1 && c.sh.numSenders > 0 && c.receiver.SawEmpty?
    ensures Leads(c, d) && d.sh.numSenders == 0 && d.sh.readyq != []
  {
    if c.sh.readyq == [] {
      var full := PushOne(c, v);
      LeadsInv(c, full);
      d := DropAll(full);
      LeadsTrans(c, full, d);
    } else {
      d := DropAll(c);
    }
  }

  /** `NoSender` can be reported with a message queued if and only if a handle is left when `try_recv` finds the ready
      queue empty. */
  lemma NoSenderMisleadsIff<V(!new)>(n: nat, acts: seq<Action<V>>, b: Channel<V>, c: Channel<V>, v: V)
    requires n >= 1 && Reachable(n, acts, b) && ReceiverStep(b, Pop) == Some(c) && c.receiver.SawEmpty?
    ensures CanMislead(c) <==> b.sh.numSenders > 0
  {
    PopReachable(n, acts, b, c);
    var acts' := acts + [ByReceiver(Pop)];
    if b.sh.numSenders > 0 {
      HandlesCanMislead(n, acts', c, v);
    } else {
      ReachableInv(n, acts', c);
      forall m, d | Leads(c, m) && ReceiverStep(m, CheckClosed) == Some(d) ensures !Misled(d) {
        NeverMisled(c, m, d);
      }
    }
  }

  lemma NeverMisled<V(!new)>(c: Channel<V>, m: Channel<V>, d: Channel<V>)
    requires Inv(c) && c.receiver.SawEmpty? && c.receiver.noSender && Leads(c, m)
    requires ReceiverStep(m, CheckClosed) == Some(d)
    ensures !Misled(d)
  {
    LeadsInv(c, m);
  }

  lemma PopReachable<V>(n: nat, acts: seq<Action<V>>, b: Channel<V>, c: Channel<V>)
    requires Reachable(n, acts, b) && ReceiverStep(b, Pop) == Some(c)
    ensures Reachable(n, acts + [ByReceiver(Pop)], c)
  {
    var last: seq<Action<V>> := [ByReceiver(Pop)];
    assert last[1..] == [];
    assert Run(c, []) == Some(c);
    assert Run(b, last) == Some(c);
    RunJoins(Split<V>(n), acts, b, last, c);
  }
}
