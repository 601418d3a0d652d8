/** The invariants of one async priority group, kept by every step of the dispatcher, the spawners and the wakers. */
module AsyncInvariant {
  import opened Wrappers
  import opened AsyncDispatch

  /** The token in a local variable of `exec` whose input has not been dequeued. */
  function Hand<I>(pc: Pc<I>): Option<Task> {
    match pc
    case Installing(t) => Some(t)
    case Allocated(t) => Some(t)
    case Deferring(t) => Some(t)
    case _ => None
  }

  /** The part of the `deferred` array that phase B has not reached. */
  function Rest<I>(q: Queues<I>): seq<Task> {
    if q.next <= |q.deferred| then q.deferred[q.next..] else []
  }

  ghost function Tokens<I>(q: Queues<I>, hand: Option<Task>): multiset<Task> {
    multiset(q.ready) + multiset(q.overflow) + multiset(Rest(q)) +
    if hand.Some? then multiset{hand.value} else multiset{}
  }

  /** The input that the spawner inside the critical section has queued without its token. */
  function Half(spawner: Spawner): multiset<Task> {
    if spawner.InputQueued? then multiset{spawner.t} else multiset{}
  }

  ghost predicate Shape<I>(g: Group<I>) {
    && |g.q.inputs| == |g.slots| == |g.h.accepted| == |g.h.taken| == |g.h.completed| == |g.cfg.caps|
    && |g.h.events| == |g.h.seen| == |g.slots|
    && g.q.next <= |g.q.deferred|
    && (match g.d.pc
        case Idle => g.q.next == |g.q.deferred|
        case Draining => !g.d.phaseB
        case Polling(_) => !g.d.phaseB
        case SawRunning(k) => !g.d.phaseB && k < |g.slots|
        case InFuture(k) => !g.d.phaseB && k < |g.slots|
        case Completing(k) => !g.d.phaseB && k < |g.slots|
        case DroppedFuture(k) => !g.d.phaseB && k < |g.slots|
        case Collecting => g.d.phaseB && g.q.next == 0
        case Reinstalling => g.d.phaseB
        case Repending => g.d.phaseB && g.q.next == |g.q.deferred|
        case Dequeued(t, _) => t < |g.slots|
        case Written(t) => t < |g.slots|
        case _ => true)
    && (!g.d.phaseB ==> g.q.next == |g.q.deferred|)
  }

  /** Token/input balance, per task. */
  ghost predicate Matches<I>(owed: multiset<Task>, inputs: seq<seq<I>>, caps: seq<nat>)
    requires |inputs| == |caps|
  {
    && (forall t :: t in owed ==> t < |inputs|)
    && (forall t :: 0 <= t < |inputs| ==> owed[t] == |inputs[t]| <= caps[t])
  }

  ghost predicate Balance<I>(q: Queues<I>, hand: Option<Task>, half: multiset<Task>, caps: seq<nat>) {
    |q.inputs| == |caps| && Matches(Tokens(q, hand) + half, q.inputs, caps)
  }

  /** The input of the instance that has left the queue and has not completed. */
  function Current<I>(g: Group<I>, t: Task): seq<I>
    requires t < |g.slots|
  {
    if g.d.pc.Dequeued? && g.d.pc.t == t then [g.d.pc.input]
    else if g.slots[t].future.Live? then [g.slots[t].future.input]
    else []
  }

  /** Task `t` between `try_allocate` and the write of its future, or between its drop and `running = false`. */
  ghost predicate Between<I>(pc: Pc<I>, t: Task) {
    match pc
    case Allocated(x) => x == t
    case Dequeued(x, _) => x == t
    case DroppedFuture(x) => x == t
    case _ => false
  }

  ghost predicate NeedsLive<I>(pc: Pc<I>, t: Task) {
    match pc
    case Written(x) => x == t
    case SawRunning(x) => x == t
    case InFuture(x) => x == t
    case Completing(x) => x == t
    case _ => false
  }

  /** Inputs are taken in the order they were accepted; at most one instance is live and the earlier ones completed. */
  ghost predicate TaskOk<I>(g: Group<I>, t: Task)
    requires Shape(g) && t < |g.slots|
  {
    && g.h.taken[t] + g.q.inputs[t] == g.h.accepted[t]
    && g.h.completed[t] + Current(g, t) == g.h.taken[t]
    && (g.slots[t].running <==> g.slots[t].future.Live? || Between(g.d.pc, t))
    && (Between(g.d.pc, t) ==> g.slots[t].future.Uninit?)
    && (NeedsLive(g.d.pc, t) ==> g.slots[t].future.Live?)
    && (g.e.initialized || g.h.accepted[t] == [])
  }

  ghost predicate TasksOk<I>(g: Group<I>)
    requires Shape(g)
  {
    forall t :: 0 <= t < |g.slots| ==> TaskOk(g, t)
  }

  /** A waker will still pend the interrupt, or it is pended; the idle loop needs no interrupt. */
  ghost predicate Due<I>(g: Group<I>) {
    g.cfg.idle || g.e.irq || g.e.waking > 0
  }

  /** Task `t` has been passed by this poll phase, or the poll phase is over. */
  ghost predicate Passed<I>(g: Group<I>, t: Task) {
    match g.d.pc
    case Polling(k) => t < k
    case SawRunning(k) => t < k
    case InFuture(k) => t <= k
    case Completing(k) => t < k
    case DroppedFuture(k) => t < k
    case Idle => true
    case Draining => false
    case Installing(_) => g.d.phaseB
    case Allocated(x) => g.d.phaseB && x != t
    case Dequeued(x, _) => g.d.phaseB && x != t
    case Written(x) => g.d.phaseB && x != t
    case Deferring(_) => g.d.phaseB
    case _ => true
  }

  /** A wake-up that the current poll phase no longer sees has the dispatcher run again. */
  ghost predicate WakesOk<I>(g: Group<I>) {
    forall t :: 0 <= t < |g.slots| && Passed(g, t) && g.slots[t].running && g.slots[t].pending ==>
                  Due(g) || (g.d.phaseB && g.d.installed && !g.d.pc.Idle?)
  }

  /** An install or a wake-up that no later poll has seen is recorded in `pending`, or the poll is about to start. */
  ghost predicate Unseen<I>(g: Group<I>, t: Task)
    requires Shape(g) && t < |g.slots|
  {
    g.slots[t].pending || g.h.seen[t] == g.h.events[t] || g.d.pc == InFuture(t)
  }

  ghost predicate EventsOk<I>(g: Group<I>)
    requires Shape(g)
  {
    forall t :: 0 <= t < |g.slots| ==> Unseen(g, t)
  }

  ghost predicate ReadyOk<I>(g: Group<I>) {
    && (g.q.ready != [] ==> StillDraining(g) || g.cfg.idle || g.e.irq || g.e.spawner.TokenQueued? || g.h.lostPend)
    && (g.h.lostPend ==> g.q.ready != [] && !StillDraining(g) && !g.cfg.idle && !g.e.irq)
  }

  /** After phase B has gone through the overflow queue, a token is on it only because its task runs. */
  ghost predicate OverflowOk<I>(g: Group<I>)
    requires |g.q.inputs| == |g.slots|
  {
    && (g.d.pc.Idle? || (g.d.phaseB && !g.d.pc.Collecting?) ==>
          forall t :: t in g.q.overflow && t < |g.slots| ==> g.slots[t].running)
    && (g.d.pc.Deferring? && g.d.pc.t < |g.slots| ==> g.slots[g.d.pc.t].running)
  }

  ghost predicate Inv<I>(g: Group<I>) {
    && Shape(g)
    && Balance(g.q, Hand(g.d.pc), Half(g.e.spawner), g.cfg.caps)
    && TasksOk(g) && WakesOk(g) && ReadyOk(g) && OverflowOk(g) && EventsOk(g)
  }

  // ----- Steps of spawners and wakers

  lemma EnvShape<I>(g: Group<I>, a: EnvAction<I>)
    requires Shape(g) && EnvStep(g, a).Some?
    ensures Shape(EnvStep(g, a).value)
  {
  }

  lemma MatchesGrows<I>(owed: multiset<Task>, inputs: seq<seq<I>>, caps: seq<nat>, t: Task, input: I)
    requires |inputs| == |caps| && Matches(owed, inputs, caps) && t < |inputs| && |inputs[t]| < caps[t]
    ensures Matches(owed + multiset{t}, inputs[t := inputs[t] + [input]], caps)
  {
  }

  lemma MatchesShrinks<I>(owed: multiset<Task>, inputs: seq<seq<I>>, caps: seq<nat>, t: Task)
    requires |inputs| == |caps| && Matches(owed, inputs, caps) && t in owed
    ensures t < |inputs| && inputs[t] != []
    ensures Matches(owed - multiset{t}, inputs[t := inputs[t][1..]], caps)
  {
  }

  /** `spawn` queues an input ... */
  lemma SpawnBalance<I>(q: Queues<I>, hand: Option<Task>, caps: seq<nat>, t: Task, input: I)
    requires Balance(q, hand, multiset{}, caps) && t < |q.inputs| && |q.inputs[t]| < caps[t]
    ensures Balance(q.(inputs := q.inputs[t := q.inputs[t] + [input]]), hand, multiset{t}, caps)
  {
    MatchesGrows(Tokens(q, hand) + multiset{}, q.inputs, caps, t, input);
    assert Tokens(q.(inputs := q.inputs[t := q.inputs[t] + [input]]), hand) + multiset{t}
        == Tokens(q, hand) + multiset{} + multiset{t};
  }

  /** ... and then its token. */
  lemma PushBalance<I>(q: Queues<I>, hand: Option<Task>, caps: seq<nat>, t: Task)
    requires Balance(q, hand, multiset{t}, caps)
    ensures Balance(q.(ready := q.ready + [t]), hand, multiset{}, caps)
  {
    assert Tokens(q.(ready := q.ready + [t]), hand) + multiset{} == Tokens(q, hand) + multiset{t};
  }

  lemma EnvMoves<I>(g: Group<I>, a: EnvAction<I>, g': Group<I>)
    requires |g.q.inputs| == |g.cfg.caps| && EnvStep(g, a) == Some(g')
    ensures g'.cfg == g.cfg && g'.d == g.d
    ensures || (g'.q == g.q && Half(g'.e.spawner) == Half(g.e.spawner))
            || (a.Spawn? && a.t < |g.q.inputs| && |g.q.inputs[a.t]| < g.cfg.caps[a.t] && Half(g.e.spawner) == multiset{}
                && g'.q == g.q.(inputs := g.q.inputs[a.t := g.q.inputs[a.t] + [a.input]])
                && Half(g'.e.spawner) == multiset{a.t})
            || (g.e.spawner.InputQueued? && Half(g'.e.spawner) == multiset{}
                && g'.q == g.q.(ready := g.q.ready + [g.e.spawner.t]))
  {
  }

  lemma EnvBalance<I>(g: Group<I>, a: EnvAction<I>)
    requires Balance(g.q, Hand(g.d.pc), Half(g.e.spawner), g.cfg.caps) && EnvStep(g, a).Some?
    ensures var g' := EnvStep(g, a).value; Balance(g'.q, Hand(g'.d.pc), Half(g'.e.spawner), g'.cfg.caps)
  {
    var g' := EnvStep(g, a).value;
    EnvMoves(g, a, g');
    if g'.q == g.q && Half(g'.e.spawner) == Half(g.e.spawner) {
    } else if g.e.spawner.InputQueued? {
      PushBalance(g.q, Hand(g.d.pc), g.cfg.caps, g.e.spawner.t);
    } else {
      SpawnBalance(g.q, Hand(g.d.pc), g.cfg.caps, a.t, a.input);
    }
  }

  lemma EnvTasks<I>(g: Group<I>, a: EnvAction<I>)
    requires Shape(g) && TasksOk(g) && EnvStep(g, a).Some? && Shape(EnvStep(g, a).value)
    ensures TasksOk(EnvStep(g, a).value)
  {
    forall t | 0 <= t < |g.slots| ensures TaskOk(EnvStep(g, a).value, t) {
      assert TaskOk(g, t);
    }
  }

  lemma EnvWakes<I>(g: Group<I>, a: EnvAction<I>)
    requires Shape(g) && WakesOk(g) && ReadyOk(g) && OverflowOk(g) && EnvStep(g, a).Some?
    ensures Shape(EnvStep(g, a).value)
    ensures WakesOk(EnvStep(g, a).value) && ReadyOk(EnvStep(g, a).value) && OverflowOk(EnvStep(g, a).value)
  {
    var n := EnvStep(g, a).value;
    EnvShape(g, a);
    EnvKeepsPassed(g, a, n);
    EnvReady(g, a, n);
    EnvOverflow(g, a, n);
  }

  lemma EnvKeepsPassed<I>(g: Group<I>, a: EnvAction<I>, n: Group<I>)
    requires Shape(g) && WakesOk(g) && EnvStep(g, a) == Some(n)
    ensures WakesOk(n)
  {
    forall t | 0 <= t < |n.slots| && Passed(n, t) && n.slots[t].running && n.slots[t].pending
      ensures Due(n) || (n.d.phaseB && n.d.installed && !n.d.pc.Idle?)
    {
      assert Passed(g, t);
    }
  }

  lemma EnvReady<I>(g: Group<I>, a: EnvAction<I>, n: Group<I>)
    requires ReadyOk(g) && EnvStep(g, a) == Some(n)
    ensures ReadyOk(n)
  {
  }

  lemma EnvOverflow<I>(g: Group<I>, a: EnvAction<I>, n: Group<I>)
    requires Shape(g) && Shape(n) && OverflowOk(g) && EnvStep(g, a) == Some(n)
    ensures OverflowOk(n)
  {
  }

  lemma EnvEvents<I>(g: Group<I>, a: EnvAction<I>)
    requires Shape(g) && EventsOk(g) && EnvStep(g, a).Some? && Shape(EnvStep(g, a).value)
    ensures EventsOk(EnvStep(g, a).value)
  {
    forall t | 0 <= t < |g.slots| ensures Unseen(EnvStep(g, a).value, t) {
      assert Unseen(g, t);
    }
  }

  // ----- Steps of the dispatcher

  lemma AdvanceShape<I>(g: Group<I>, ready: bool)
    requires Shape(g) && AdvanceStep(g, ready).Some?
    ensures Shape(AdvanceStep(g, ready).value)
  {
    match g.d.pc
    case Polling(_) => PollShape(g, ready);
    case SawRunning(_) => PollShape(g, ready);
    case InFuture(_) => PollShape(g, ready);
    case Completing(_) => PollShape(g, ready);
    case DroppedFuture(_) => PollShape(g, ready);
    case Allocated(_) => InstallShape(g, ready);
    case Dequeued(_, _) => InstallShape(g, ready);
    case Written(_) => InstallShape(g, ready);
    case _ => QueueShape(g, ready);
  }

  predicate InPoll<I>(pc: Pc<I>) {
    pc.Polling? || pc.SawRunning? || pc.InFuture? || pc.Completing? || pc.DroppedFuture?
  }

  predicate InInstall<I>(pc: Pc<I>) {
    pc.Allocated? || pc.Dequeued? || pc.Written?
  }

  lemma PollShape<I>(g: Group<I>, ready: bool)
    requires Shape(g) && AdvanceStep(g, ready).Some? && InPoll(g.d.pc)
    ensures Shape(AdvanceStep(g, ready).value)
  {
  }

  lemma InstallShape<I>(g: Group<I>, ready: bool)
    requires Shape(g) && AdvanceStep(g, ready).Some? && InInstall(g.d.pc)
    ensures Shape(AdvanceStep(g, ready).value)
  {
  }

  lemma QueueShape<I>(g: Group<I>, ready: bool)
    requires Shape(g) && AdvanceStep(g, ready).Some? && !InPoll(g.d.pc) && !InInstall(g.d.pc)
    ensures Shape(AdvanceStep(g, ready).value)
  {
  }

  // Tokens only move between the ready queue, the overflow queue, the array and the hand.

  lemma DrainBalance<I>(q: Queues<I>, half: multiset<Task>, caps: seq<nat>)
    requires Balance(q, None, half, caps) && q.ready != []
    ensures Balance(q.(ready := q.ready[1..]), Some(q.ready[0]), half, caps)
  {
    assert q.ready == [q.ready[0]] + q.ready[1..];
    assert Tokens(q.(ready := q.ready[1..]), Some(q.ready[0])) == Tokens(q, None);
  }

  lemma CollectBalance<I>(q: Queues<I>, half: multiset<Task>, caps: seq<nat>)
    requires Balance(q, None, half, caps) && q.overflow != [] && q.next <= |q.deferred|
    ensures Balance(q.(overflow := q.overflow[1..], deferred := q.deferred + [q.overflow[0]]), None, half, caps)
  {
    var q' := q.(overflow := q.overflow[1..], deferred := q.deferred + [q.overflow[0]]);
    assert q.overflow == [q.overflow[0]] + q.overflow[1..];
    assert Rest(q') == Rest(q) + [q.overflow[0]];
    assert Tokens(q', None) == Tokens(q, None);
  }

  lemma ReinstallBalance<I>(q: Queues<I>, half: multiset<Task>, caps: seq<nat>)
    requires Balance(q, None, half, caps) && q.next < |q.deferred|
    ensures Balance(q.(next := q.next + 1), Some(q.deferred[q.next]), half, caps)
  {
    var q', t := q.(next := q.next + 1), q.deferred[q.next];
    assert Rest(q) == [t] + Rest(q');
    assert Tokens(q', Some(t)) == Tokens(q, None);
  }

  lemma DeferBalance<I>(q: Queues<I>, half: multiset<Task>, caps: seq<nat>, t: Task)
    requires Balance(q, Some(t), half, caps)
    ensures Balance(q.(overflow := q.overflow + [t]), None, half, caps)
  {
    assert Tokens(q.(overflow := q.overflow + [t]), None) == Tokens(q, Some(t));
  }

  /** `dequeue_unchecked` finds an input and consumes the token in hand. */
  lemma TakeBalance<I>(q: Queues<I>, half: multiset<Task>, caps: seq<nat>, t: Task)
    requires Balance(q, Some(t), half, caps)
    ensures t < |q.inputs| && q.inputs[t] != []
    ensures Balance(q.(inputs := q.inputs[t := q.inputs[t][1..]]), None, half, caps)
  {
    assert t in Tokens(q, Some(t)) + half;
    MatchesShrinks(Tokens(q, Some(t)) + half, q.inputs, caps, t);
    assert Tokens(q.(inputs := q.inputs[t := q.inputs[t][1..]]), None) + half
        == Tokens(q, Some(t)) + half - multiset{t};
  }

  /** Phase B starts with a fresh array; what was in the old one has been dealt with. */
  lemma FreshBalance<I>(q: Queues<I>, half: multiset<Task>, caps: seq<nat>)
    requires Balance(q, None, half, caps) && Rest(q) == []
    ensures Balance(q.(deferred := [], next := 0), None, half, caps)
  {
    assert Tokens(q.(deferred := [], next := 0), None) == Tokens(q, None);
  }

  /** How one step of `exec` changes the queues and the token in hand. */
  ghost predicate TokenMove<I>(q: Queues<I>, hand: Option<Task>, q': Queues<I>, hand': Option<Task>) {
    || (q' == q && hand' == hand)
    || (q.ready != [] && hand == None && q' == q.(ready := q.ready[1..]) && hand' == Some(q.ready[0]))
    || (q.overflow != [] && q.next <= |q.deferred| && hand == hand' == None
        && q' == q.(overflow := q.overflow[1..], deferred := q.deferred + [q.overflow[0]]))
    || (q.next < |q.deferred| && hand == None && q' == q.(next := q.next + 1) && hand' == Some(q.deferred[q.next]))
    || (hand' == None && exists t :: hand == Some(t) && q' == q.(overflow := q.overflow + [t]))
    || (hand' == None && exists t :: hand == Some(t) && t < |q.inputs| && q.inputs[t] != []
                                           && q' == q.(inputs := q.inputs[t := q.inputs[t][1..]]))
    || (hand == hand' == None && q.next == |q.deferred| && q' == q.(deferred := [], next := 0))
  }

  lemma AdvanceMoves<I>(g: Group<I>, ready: bool)
    requires AdvanceStep(g, ready).Some? && g.q.next <= |g.q.deferred|
    requires g.d.pc.Polling? ==> g.q.next == |g.q.deferred|
    ensures var g' := AdvanceStep(g, ready).value;
            TokenMove(g.q, Hand(g.d.pc), g'.q, Hand(g'.d.pc)) && g'.e.spawner == g.e.spawner && g'.cfg == g.cfg
  {
    match g.d.pc
    case Draining =>
    case Deferring(t) =>
    case Allocated(t) =>
    case Polling(k) =>
    case Collecting =>
    case Reinstalling =>
    case Idle =>
    case _ => assert AdvanceStep(g, ready).value.q == g.q;
  }

  lemma MoveKeepsBalance<I>(q: Queues<I>, hand: Option<Task>, q': Queues<I>, hand': Option<Task>,
                            half: multiset<Task>, caps: seq<nat>)
    requires Balance(q, hand, half, caps) && TokenMove(q, hand, q', hand')
    ensures Balance(q', hand', half, caps)
  {
    if q' == q && hand' == hand {
    } else if q.ready != [] && hand == None && q' == q.(ready := q.ready[1..]) {
      DrainBalance(q, half, caps);
    } else if hand == hand' == None && q' == q.(deferred := [], next := 0) && q.next == |q.deferred| {
      FreshBalance(q, half, caps);
    } else if q.overflow != [] && hand == hand' == None {
      CollectBalance(q, half, caps);
    } else if q.next < |q.deferred| && hand == None {
      ReinstallBalance(q, half, caps);
    } else {
      var t :| hand == Some(t) && (q' == q.(overflow := q.overflow + [t]) || t < |q.inputs|);
      TakeBalance(q, half, caps, t);
      DeferBalance(q, half, caps, t);
    }
  }

  lemma AdvanceBalance<I>(g: Group<I>, ready: bool)
    requires AdvanceStep(g, ready).Some? && Shape(g)
    requires Balance(g.q, Hand(g.d.pc), Half(g.e.spawner), g.cfg.caps)
    ensures var g' := AdvanceStep(g, ready).value; Balance(g'.q, Hand(g'.d.pc), Half(g'.e.spawner), g'.cfg.caps)
  {
    var g' := AdvanceStep(g, ready).value;
    AdvanceMoves(g, ready);
    MoveKeepsBalance(g.q, Hand(g.d.pc), g'.q, Hand(g'.d.pc), Half(g.e.spawner), g.cfg.caps);
  }

  /** What concerns task `t` is untouched. */
  lemma TaskUntouched<I>(g: Group<I>, g': Group<I>, t: Task)
    requires Shape(g) && Shape(g') && t < |g.slots| == |g'.slots| && TaskOk(g, t)
    requires g'.slots[t].future == g.slots[t].future && g'.slots[t].running == g.slots[t].running
    requires g'.h.accepted[t] == g.h.accepted[t] && g'.h.taken[t] == g.h.taken[t]
    requires g'.h.completed[t] == g.h.completed[t]
    requires g'.q.inputs[t] == g.q.inputs[t] && g'.e.initialized == g.e.initialized
    requires Between(g'.d.pc, t) == Between(g.d.pc, t) && Current(g', t) == Current(g, t)
    requires NeedsLive(g'.d.pc, t) ==> g'.slots[t].future.Live?
    ensures TaskOk(g', t)
  {
  }

  /** The task the step is about. */
  function Acting<I>(pc: Pc<I>): Option<Task> {
    match pc
    case Installing(t) => Some(t)
    case Allocated(t) => Some(t)
    case Dequeued(t, _) => Some(t)
    case Completing(k) => Some(k)
    case DroppedFuture(k) => Some(k)
    case _ => None
  }

  lemma ActingTask<I>(g: Group<I>, ready: bool, t: Task)
    requires Shape(g) && t < |g.slots| && TaskOk(g, t) && Acting(g.d.pc) == Some(t)
    requires AdvanceStep(g, ready).Some? && Shape(AdvanceStep(g, ready).value)
    ensures TaskOk(AdvanceStep(g, ready).value, t)
  {
  }

  /** A step about one task does not touch another. */
  lemma OtherTask<I>(g: Group<I>, ready: bool, t: Task)
    requires Shape(g) && t < |g.slots| && TaskOk(g, t) && Acting(g.d.pc).Some? && Acting(g.d.pc) != Some(t)
    requires AdvanceStep(g, ready).Some? && Shape(AdvanceStep(g, ready).value)
    ensures |AdvanceStep(g, ready).value.slots| == |g.slots| && TaskOk(AdvanceStep(g, ready).value, t)
  {
    var g' := AdvanceStep(g, ready).value;
    assert !Between(g.d.pc, t) && !Between(g'.d.pc, t);
    TaskUntouched(g, g', t);
  }

  /** The other steps touch no task's inputs and no life cycle; they may set or clear `pending`. */
  lemma NoTaskFrame<I>(g: Group<I>, ready: bool, t: Task, g': Group<I>)
    requires Shape(g) && t < |g.slots| && Acting(g.d.pc) == None && AdvanceStep(g, ready) == Some(g')
    ensures |g'.slots| == |g.slots|
    ensures g'.slots[t].future == g.slots[t].future && g'.slots[t].running == g.slots[t].running
    ensures g'.h.accepted == g.h.accepted && g'.h.taken == g.h.taken && g'.h.completed == g.h.completed
    ensures g'.q.inputs == g.q.inputs && g'.e.initialized == g.e.initialized
    ensures !Between(g.d.pc, t) && !Between(g'.d.pc, t) && !g.d.pc.Dequeued? && !g'.d.pc.Dequeued?
  {
  }

  lemma NoTaskNeeds<I>(g: Group<I>, ready: bool, t: Task, g': Group<I>)
    requires Shape(g) && t < |g.slots| && TaskOk(g, t) && Acting(g.d.pc) == None && AdvanceStep(g, ready) == Some(g')
    ensures NeedsLive(g'.d.pc, t) ==> g.slots[t].future.Live?
  {
  }

  lemma NoTask<I>(g: Group<I>, ready: bool, t: Task)
    requires Shape(g) && t < |g.slots| && TaskOk(g, t) && Acting(g.d.pc) == None
    requires AdvanceStep(g, ready).Some? && Shape(AdvanceStep(g, ready).value)
    ensures |AdvanceStep(g, ready).value.slots| == |g.slots| && TaskOk(AdvanceStep(g, ready).value, t)
  {
    var g' := AdvanceStep(g, ready).value;
    NoTaskFrame(g, ready, t, g');
    NoTaskNeeds(g, ready, t, g');
    TaskUntouched(g, g', t);
  }

  lemma AdvanceTasks<I>(g: Group<I>, ready: bool)
    requires Shape(g) && TasksOk(g) && AdvanceStep(g, ready).Some? && Shape(AdvanceStep(g, ready).value)
    ensures TasksOk(AdvanceStep(g, ready).value)
  {
    var g' := AdvanceStep(g, ready).value;
    forall t | 0 <= t < |g'.slots| ensures TaskOk(g', t) {
      if Acting(g.d.pc) == None {
        NoTask(g, ready, t);
      } else if Acting(g.d.pc) == Some(t) {
        ActingTask(g, ready, t);
      } else {
        OtherTask(g, ready, t);
      }
    }
  }

  lemma AdvanceWakes<I>(g: Group<I>, ready: bool)
    requires Shape(g) && WakesOk(g) && AdvanceStep(g, ready).Some?
    ensures WakesOk(AdvanceStep(g, ready).value)
  {
  }

  lemma AdvanceEvents<I>(g: Group<I>, ready: bool)
    requires Shape(g) && EventsOk(g) && AdvanceStep(g, ready).Some? && Shape(AdvanceStep(g, ready).value)
    ensures EventsOk(AdvanceStep(g, ready).value)
  {
    var g' := AdvanceStep(g, ready).value;
    forall t | 0 <= t < |g'.slots| ensures Unseen(g', t) {
      assert Unseen(g, t);
    }
  }

  lemma AdvanceReady<I>(g: Group<I>, ready: bool)
    requires Shape(g) && ReadyOk(g) && AdvanceStep(g, ready).Some?
    ensures ReadyOk(AdvanceStep(g, ready).value)
  {
  }

  lemma AdvanceOverflow<I>(g: Group<I>, ready: bool)
    requires Shape(g) && TasksOk(g) && OverflowOk(g)
    requires AdvanceStep(g, ready).Some? && Shape(AdvanceStep(g, ready).value)
    ensures OverflowOk(AdvanceStep(g, ready).value)
  {
  }
}
