/** One priority group of async tasks: the code emitted by the async pass for `spawn`, the wake functions and
    the dispatcher (or the idle executor), one step per access to a queue, a flag or a future. */
module AsyncDispatch {
  import opened Wrappers

  type Task = nat

  /** Task `t < |caps|` has an input queue of capacity `caps[t]`; `idle` selects the priority-0 executor, which
      loops for ever and is never pended. */
  datatype Config = Config(caps: seq<nat>, idle: bool)

  /** `ExecSlot`: the future's memory and the two flags. */
  datatype Future<I> = Uninit | Live(input: I)
  datatype ExecSlot<I> = ExecSlot(future: Future<I>, running: bool, pending: bool)

  /** Where the dispatcher stands.  `Idle` is outside `exec` (at the loop head for the idle executor). */
  datatype Pc<I> =
    | Idle
    | Draining
    | Installing(t: Task)
    | Allocated(t: Task)
    | Dequeued(t: Task, input: I)
    | Written(t: Task)
    | Deferring(t: Task)
    | Polling(k: nat)
    | SawRunning(k: nat)
    | InFuture(k: nat)
    | Completing(k: nat)
    | DroppedFuture(k: nat)
    | Collecting
    | Reinstalling
    | Repending

  /** Where the one spawner that is inside the critical section stands. */
  datatype Spawner = Outside | InputQueued(t: Task) | TokenQueued

  /** `waking` counts the wake functions between `set_pending` and the pend; `lostPend` says that a
      cross-core pend has failed when a token waited that no execution was going to see, and that nothing has pended
      the dispatcher since.  `accepted`, `taken` and `completed` are per-task
      histories of inputs; `events` counts the installs and the wake-ups of each task, and `seen` is that count when the
      task's future was last polled. */
  datatype Queues<I> = Queues(
    inputs: seq<seq<I>>, ready: seq<Task>, overflow: seq<Task>, deferred: seq<Task>, next: nat)
  datatype Dispatcher<I> = Dispatcher(pc: Pc<I>, phaseB: bool, installed: bool)
  datatype Signals = Signals(initialized: bool, spawner: Spawner, irq: bool, waking: nat)
  datatype History<I> = History(
    accepted: seq<seq<I>>, taken: seq<seq<I>>, completed: seq<seq<I>>, events: seq<nat>, seen: seq<nat>,
    lostPend: bool)

  datatype Group<I> = Group(
    cfg: Config,
    q: Queues<I>,
    slots: seq<ExecSlot<I>>,
    d: Dispatcher<I>,
    e: Signals,
    h: History<I>)

  datatype EnvAction<I> =
    | Initialize
    | Spawn(t: Task, input: I)
    | PushToken
    | Pend
    | PendFails
    | SetPending(t: Task)
    | WakePend

  datatype Action<I> = Env(e: EnvAction<I>) | Enter | Advance(ready: bool)

  /** The ready queue is still being drained by this execution. */
  predicate StillDraining<I>(g: Group<I>) {
    && !g.d.phaseB
    && (g.d.pc.Draining? || g.d.pc.Installing? || g.d.pc.Allocated? || g.d.pc.Dequeued? || g.d.pc.Written? ||
        g.d.pc.Deferring?)
  }

  /** Spawns and wakes, from any context that can preempt the dispatcher. */
  function EnvStep<I>(g: Group<I>, a: EnvAction<I>): Option<Group<I>> {
    match a
    case Initialize => Some(g.(e := g.e.(initialized := true)))
    case Spawn(t, input) =>
      if g.e.spawner.Outside? && t < |g.q.inputs| && t < |g.cfg.caps| && t < |g.h.accepted| then
        if g.e.initialized && |g.q.inputs[t]| < g.cfg.caps[t] then
          Some(g.(q := g.q.(inputs := g.q.inputs[t := g.q.inputs[t] + [input]]),
                  h := g.h.(accepted := g.h.accepted[t := g.h.accepted[t] + [input]]),
                  e := g.e.(spawner := InputQueued(t))))
        else Some(g)
      else None
    case PushToken =>
      if g.e.spawner.InputQueued? then
        Some(g.(q := g.q.(ready := g.q.ready + [g.e.spawner.t]), e := g.e.(spawner := TokenQueued)))
      else None
    case Pend =>
      if g.e.spawner.TokenQueued? then
        Some(g.(e := g.e.(irq := !g.cfg.idle, spawner := Outside), h := g.h.(lostPend := false)))
      else None
    case PendFails =>
      if g.e.spawner.TokenQueued? then
        var stranded := g.q.ready != [] && !StillDraining(g) && !g.cfg.idle && !g.e.irq;
        Some(g.(e := g.e.(spawner := Outside), h := g.h.(lostPend := g.h.lostPend || stranded)))
      else None
    case SetPending(t) =>
      if t < |g.slots| && t < |g.h.events| then
        Some(g.(slots := g.slots[t := g.slots[t].(pending := true)], e := g.e.(waking := g.e.waking + 1),
                h := g.h.(events := g.h.events[t := g.h.events[t] + 1])))
      else None
    case WakePend =>
      if g.e.waking > 0 then
        Some(g.(e := g.e.(waking := g.e.waking - 1, irq := !g.cfg.idle), h := g.h.(lostPend := false)))
      else None
  }

  /** The interrupt is taken (the idle loop starts over): `exec` begins. */
  function EnterStep<I>(g: Group<I>): Option<Group<I>> {
    if g.d.pc.Idle? && (g.e.irq || g.cfg.idle) then
      Some(g.(e := g.e.(irq := false), d := g.d.(pc := Draining, phaseB := false)))
    else None
  }

  /** After one token of phase A or B. */
  function Resume<I>(g: Group<I>): Group<I> {
    g.(d := g.d.(pc := if g.d.phaseB then Reinstalling else Draining))
  }

  /** One step of `exec`; `ready` is what a polled future returns.  `None`: the step would read a queue
      or a future that holds nothing. */
  function AdvanceStep<I>(g: Group<I>, ready: bool): Option<Group<I>> {
    match g.d.pc
    case Idle => None
    case Draining =>
      if g.q.ready == [] then Some(g.(d := g.d.(pc := Polling(0))))
      else Some(g.(q := g.q.(ready := g.q.ready[1..]), d := g.d.(pc := Installing(g.q.ready[0]))))
    case Installing(t) =>
      if t >= |g.slots| then None
      else if g.slots[t].running then Some(g.(d := g.d.(pc := Deferring(t))))
      else Some(g.(slots := g.slots[t := g.slots[t].(running := true)], d := g.d.(pc := Allocated(t))))
    case Allocated(t) =>
      if t < |g.q.inputs| && t < |g.h.taken| && g.q.inputs[t] != [] then
        Some(g.(q := g.q.(inputs := g.q.inputs[t := g.q.inputs[t][1..]]),
                h := g.h.(taken := g.h.taken[t := g.h.taken[t] + [g.q.inputs[t][0]]]),
                d := g.d.(pc := Dequeued(t, g.q.inputs[t][0]))))
      else None
    case Dequeued(t, input) =>
      if t < |g.slots| && g.slots[t].future.Uninit? then
        Some(g.(slots := g.slots[t := g.slots[t].(future := Live(input))], d := g.d.(pc := Written(t))))
      else None
    case Written(t) =>
      if t < |g.slots| && t < |g.h.events| then
        Some(Resume(g.(slots := g.slots[t := g.slots[t].(pending := true)],
                       h := g.h.(events := g.h.events[t := g.h.events[t] + 1]),
                       d := g.d.(installed := g.d.installed || g.d.phaseB))))
      else None
    case Deferring(t) => Some(Resume(g.(q := g.q.(overflow := g.q.overflow + [t]))))
    case Polling(k) =>
      if k >= |g.slots| then
        Some(g.(d := g.d.(pc := Collecting, phaseB := true, installed := false), q := g.q.(deferred := [], next := 0)))
      else Some(g.(d := g.d.(pc := if g.slots[k].running then SawRunning(k) else Polling(k + 1))))
    case SawRunning(k) =>
      if k >= |g.slots| then None
      else if g.slots[k].pending then
        Some(g.(slots := g.slots[k := g.slots[k].(pending := false)], d := g.d.(pc := InFuture(k))))
      else Some(g.(d := g.d.(pc := Polling(k + 1))))
    case InFuture(k) =>
      if k < |g.slots| && k < |g.h.seen| && k < |g.h.events| && g.slots[k].future.Live? then
        Some(g.(h := g.h.(seen := g.h.seen[k := g.h.events[k]]),
                d := g.d.(pc := if ready then Completing(k) else Polling(k + 1))))
      else None
    case Completing(k) =>
      if k < |g.slots| && k < |g.h.completed| && g.slots[k].future.Live? then
        Some(g.(h := g.h.(completed := g.h.completed[k := g.h.completed[k] + [g.slots[k].future.input]]),
                slots := g.slots[k := g.slots[k].(future := Uninit)],
                d := g.d.(pc := DroppedFuture(k))))
      else None
    case DroppedFuture(k) =>
      if k < |g.slots| then
        Some(g.(slots := g.slots[k := g.slots[k].(running := false)], d := g.d.(pc := Polling(k + 1))))
      else None
    case Collecting =>
      if g.q.overflow == [] then Some(g.(d := g.d.(pc := Reinstalling)))
      else Some(g.(q := g.q.(overflow := g.q.overflow[1..], deferred := g.q.deferred + [g.q.overflow[0]])))
    case Reinstalling =>
      if g.q.next < |g.q.deferred| then
        Some(g.(q := g.q.(next := g.q.next + 1), d := g.d.(pc := Installing(g.q.deferred[g.q.next]))))
      else if g.d.installed && !g.cfg.idle then Some(g.(d := g.d.(pc := Repending)))
      else Some(g.(d := g.d.(pc := Idle)))
    case Repending => Some(g.(e := g.e.(irq := true), h := g.h.(lostPend := false), d := g.d.(pc := Idle)))
  }

  function Step<I>(g: Group<I>, a: Action<I>): Option<Group<I>> {
    match a
    case Env(e) => EnvStep(g, e)
    case Enter => EnterStep(g)
    case Advance(ready) => AdvanceStep(g, ready)
  }

  function Run<I>(g: Group<I>, acts: seq<Action<I>>): Option<Group<I>>
    decreases |acts|
  {
    if acts == [] then Some(g)
    else
      match Step(g, acts[0])
      case Some(m) => Run(m, acts[1..])
      case None => None
  }

  function Start<I>(cfg: Config): Group<I> {
    var n := |cfg.caps|;
    Group(cfg, Queues(seq(n, _ => []), [], [], [], 0), seq(n, _ => ExecSlot(Uninit, false, false)),
          Dispatcher(Idle, false, false), Signals(false, Outside, false, 0),
          History(seq(n, _ => []), seq(n, _ => []), seq(n, _ => []), seq(n, _ => 0), seq(n, _ => 0), false))
  }
}
