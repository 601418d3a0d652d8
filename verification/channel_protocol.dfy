/** The N-slot channel of `rticx-async/src/channel.rs` as a transition system: any number of senders
    and one receiver, one step per critical section (or per access outside of one). */
module ChannelProtocol {
  import opened Wrappers
  import opened ChannelCore

  /** A message slot: `MaybeUninit<T>` together with what it holds. */
  datatype Slot<V> = Uninit | Init(v: V)

  /** What `try_send` and `send` hand back with the value. */
  datatype SendError<V> = Full(v: V) | NoReceiver(v: V)

  /** Where a sender handle stands.  `Parked` is a `send` future that returned `Pending`: `waker`,
      `ticket` and `mark` are the waker in its link, its arrival number and the length of the wake log
      when it parked.  `Unwinding`, `Unlinked` and `Returning` are the stages of its dropper, run because the
      future was cancelled or because `send` returns `NoReceiver` with the value `back`.  `Failed` is about to
      return an error. */
  datatype SenderPc<V> =
    | Idle
    | TrySawNoWaiter(v: V)
    | TrySawOpen(v: V)
    | Started(v: V)
    | Parked(v: V, waker: Waker, ticket: nat, mark: nat)
    | Unwinding(back: Option<V>)
    | Unlinked(back: Option<V>)
    | Returning(slot: nat, back: Option<V>)
    | Failed(err: SendError<V>)
    | Writing(v: V, slot: nat)
    | Written(v: V, slot: nat)
    | Notifying
    | DropNotifying

  /** A `recv` future in progress: the registered waker and the length of the wake log at that moment. */
  datatype Reg = Reg(waker: Waker, mark: nat)

  datatype ReceiverPc =
    | Ready
    | Registered(reg: Reg)
    | SawEmpty(poll: Option<Reg>, noSender: bool)
    | Reading(slot: nat)
    | HandingBack(slot: nat)
    | Waiting(reg: Reg)
    | SawNoSender(drained: bool)
    | Draining
    | DrainReading(slot: nat)
    | PoppingWaiters
    | WakingWaiter(waker: Waker)
    | Gone

  /** `sent` lists the committed values in commit order, `received` what `try_recv`/`recv` read. */
  datatype Channel<V> = Channel(
    n: nat,
    sh: Shared,
    slots: seq<Slot<V>>,
    senders: map<Id, SenderPc<V>>,
    receiver: ReceiverPc,
    sent: seq<V>,
    received: seq<V>,
    retired: set<nat>)

  datatype SenderAction<V> =
    | Clone(copy: Id)
    | Drop
    | DropWake
    | TrySend(v: V)
    | TryCheckOpen
    | TryTake
    | Send(v: V)
    | Poll(waker: Waker)
    | Cancel
    | Unlink
    | TakeCell
    | GiveBack
    | Return
    | Write
    | Push
    | Wake

  datatype ReceiverAction =
    | Register(waker: Waker)
    | Pop
    | CheckClosed
    | Acknowledge
    | Read
    | HandBack
    | StopWaiting
    | DropReceiver
    | DrainPop
    | DrainRead
    | PopWaiter
    | WakeWaiter

  datatype Action<V> = ByReceiver(r: ReceiverAction) | BySender(id: Id, s: SenderAction<V>)

  function At<V>(c: Channel<V>, id: Id, sh: Shared, pc: SenderPc<V>): Channel<V> {
    c.(sh := sh, senders := c.senders[id := pc])
  }

  /** After its dropper, `send` returns `NoReceiver` if it was not cancelled. */
  function AfterDropper<V>(back: Option<V>): SenderPc<V> {
    match back
    case Some(v) => Failed(NoReceiver(v))
    case None => Idle
  }

  /** One step of sender `id`; `None` when the sender is not at that point of its code. */
  function SenderStep<V>(c: Channel<V>, id: Id, a: SenderAction<V>): Option<Channel<V>> {
    if id !in c.senders then None else
    var pc := c.senders[id];
    match a
    case Clone(copy) =>
      if pc.Idle? && copy !in c.senders then
        Some(At(c, copy, c.sh.(numSenders := c.sh.numSenders + 1), Idle))
      else None
    case Drop =>
      if pc.Idle? && c.sh.numSenders > 0 then
        var sh := c.sh.(numSenders := c.sh.numSenders - 1);
        if sh.numSenders == 0 then Some(At(c, id, sh, DropNotifying))
        else Some(c.(sh := sh, senders := c.senders - {id}))
      else None
    case DropWake =>
      if pc.DropNotifying? then Some(c.(sh := ChannelCore.WakeReceiver(c.sh), senders := c.senders - {id})) else None
    case TrySend(v) =>
      if pc.Idle? then
        Some(At(c, id, c.sh, if c.sh.waiters != [] then Failed(Full(v)) else TrySawNoWaiter(v)))
      else None
    case TryCheckOpen =>
      if pc.TrySawNoWaiter? then
        Some(At(c, id, c.sh, if c.sh.receiverDropped then Failed(NoReceiver(pc.v)) else TrySawOpen(pc.v)))
      else None
    case TryTake =>
      if pc.TrySawOpen? then
        var (sh, got) := TakeFree(c.sh);
        Some(At(c, id, sh, if got.Some? then Writing(pc.v, got.value) else Failed(Full(pc.v))))
      else None
    case Send(v) =>
      if pc.Idle? then Some(At(c, id, c.sh, Started(v))) else None
    case Poll(waker) =>
      if pc.Started? then
        var (sh, r) := PollSend(c.sh, id, waker, false, false);
        match r {
          case Got(slot) => Some(At(c, id, sh, Writing(pc.v, slot)))
          case Queued => Some(At(c, id, sh, Parked(pc.v, waker, c.sh.ticket, |c.sh.log|)))
          case _ => Some(At(c, id, sh, Unlinked(Some(pc.v))))
        }
      else if pc.Parked? then
        // the link is popped exactly when it is off the list (ChannelFutures.Futures.PoppedIffOffTheList)
        var popped := !exists w :: w in c.sh.waiters && w.id == id;
        var (sh, r) := PollSend(c.sh, id, waker, true, popped);
        match r {
          case Got(slot) => Some(At(c, id, sh, Writing(pc.v, slot)))
          case Pending => Some(c)
          case Refused => Some(At(c, id, sh, Unlinked(Some(pc.v))))
          case _ => Some(At(c, id, sh, Unwinding(Some(pc.v))))
        }
      else None
    case Cancel =>
      if pc.Started? then Some(At(c, id, c.sh, Idle))
      else if pc.Parked? then Some(At(c, id, c.sh, Unwinding(None)))
      else None
    case Unlink =>
      if pc.Unwinding? then Some(At(c, id, ChannelCore.Unlink(c.sh, id), Unlinked(pc.back))) else None
    case TakeCell =>
      if pc.Unlinked? then
        var (sh, got) := ChannelCore.TakeCell(c.sh, id);
        Some(At(c, id, sh, if got.Some? then Returning(got.value, pc.back) else AfterDropper(pc.back)))
      else None
    case GiveBack =>
      if pc.Returning? then Some(At(c, id, ReturnFreeSlot(c.sh, pc.slot), AfterDropper(pc.back))) else None
    case Return =>
      if pc.Failed? then Some(At(c, id, c.sh, Idle)) else None
    case Write =>
      if pc.Writing? && pc.slot < |c.slots| then
        Some(At(c, id, c.sh, Written(pc.v, pc.slot)).(slots := c.slots[pc.slot := Init(pc.v)]))
      else None
    case Push =>
      if pc.Written? then
        Some(At(c, id, PushReady(c.sh, pc.slot), Notifying).(sent := c.sent + [pc.v]))
      else None
    case Wake =>
      if pc.Notifying? then Some(At(c, id, ChannelCore.WakeReceiver(c.sh), Idle)) else None
  }

  /** One step of the receiver. */
  function ReceiverStep<V>(c: Channel<V>, a: ReceiverAction): Option<Channel<V>> {
    var pc := c.receiver;
    match a
    case Register(waker) =>
      if pc.Ready? || pc.Waiting? then
        var sh := ChannelCore.Register(c.sh, waker);
        Some(c.(sh := sh, receiver := Registered(Reg(waker, |sh.log|))))
      else None
    case Pop =>
      if pc.Ready? || pc.Registered? then
        var (sh, got) := PopReady(c.sh);
        Some(c.(sh := sh,
                receiver := if got.Some? then Reading(got.value)
                            else SawEmpty(if pc.Registered? then Some(pc.reg) else None, c.sh.numSenders == 0)))
      else None
    case CheckClosed =>
      if pc.SawEmpty? then
        if c.sh.numSenders == 0 then Some(c.(receiver := SawNoSender(pc.noSender)))
        else Some(c.(receiver := match pc.poll case Some(reg) => Waiting(reg) case None => Ready))
      else None
    case Acknowledge =>
      if pc.SawNoSender? then Some(c.(receiver := Ready)) else None
    case Read =>
      if pc.Reading? && pc.slot < |c.slots| && c.slots[pc.slot].Init? then
        Some(c.(slots := c.slots[pc.slot := Uninit], received := c.received + [c.slots[pc.slot].v],
                receiver := HandingBack(pc.slot)))
      else None
    case HandBack =>
      if pc.HandingBack? then Some(c.(sh := ReturnFreeSlot(c.sh, pc.slot), receiver := Ready)) else None
    case StopWaiting =>
      if pc.Waiting? then Some(c.(receiver := Ready)) else None
    case DropReceiver =>
      if pc.Ready? then Some(c.(sh := c.sh.(receiverDropped := true), receiver := Draining)) else None
    case DrainPop =>
      if pc.Draining? then
        var (sh, got) := DrainReady(c.sh);
        Some(c.(sh := sh, receiver := if got.Some? then DrainReading(got.value) else PoppingWaiters))
      else None
    case DrainRead =>
      if pc.DrainReading? && pc.slot < |c.slots| && c.slots[pc.slot].Init? then
        Some(c.(slots := c.slots[pc.slot := Uninit], receiver := Draining, retired := c.retired + {pc.slot}))
      else None
    case PopWaiter =>
      if pc.PoppingWaiters? then
        var (sh, got) := ChannelCore.PopWaiter(c.sh);
        Some(c.(sh := sh, receiver := if got.Some? then WakingWaiter(got.value) else Gone))
      else None
    case WakeWaiter =>
      if pc.WakingWaiter? then Some(c.(sh := c.sh.(log := c.sh.log + [pc.waker]), receiver := PoppingWaiters)) else None
  }

  function Step<V>(c: Channel<V>, a: Action<V>): Option<Channel<V>> {
    match a
    case BySender(id, s) => SenderStep(c, id, s)
    case ByReceiver(r) => ReceiverStep(c, r)
  }

  /** `Channel::new` followed by `split`: all slots free, one sender, one receiver. */
  function Split<V>(n: nat): Channel<V> {
    Channel(n, Shared(seq(n, i => i), [], [], map[], false, 1, None, [], 0, []),
            seq(n, _ => Uninit), map[0 := Idle], Ready, [], [], {})
  }

  /** The state after the interleaving `acts`; `None` if some action was not possible. */
  function Run<V>(c: Channel<V>, acts: seq<Action<V>>): Option<Channel<V>>
    decreases |acts|
  {
    if acts == [] then Some(c)
    else
      match Step(c, acts[0])
      case Some(m) => Run(m, acts[1..])
      case None => None
  }
}
