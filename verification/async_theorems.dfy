/** What holds of an async priority group after every interleaving of dispatcher steps, spawns and wake-ups. */
module AsyncTheorems {
  import opened Wrappers
  import opened AsyncDispatch
  import opened AsyncInvariant

  lemma StartInv<I>(cfg: Config)
    ensures Inv<I>(Start(cfg))
  {
    var g := Start<I>(cfg);
    assert Tokens(g.q, None) + Half(Outside) == multiset{};
    forall t | 0 <= t < |g.slots| ensures TaskOk(g, t) {
    }
  }

  lemma EnvInv<I>(g: Group<I>, a: EnvAction<I>)
    requires Inv(g) && EnvStep(g, a).Some?
    ensures Inv(EnvStep(g, a).value)
  {
    EnvShape(g, a);
    EnvBalance(g, a);
    EnvTasks(g, a);
    EnvWakes(g, a);
    EnvEvents(g, a);
  }

  lemma EnterInv<I>(g: Group<I>)
    requires Inv(g) && EnterStep(g).Some?
    ensures Inv(EnterStep(g).value)
  {
    forall t | 0 <= t < |g.slots| ensures TaskOk(EnterStep(g).value, t) && Unseen(EnterStep(g).value, t) {
      assert TaskOk(g, t) && Unseen(g, t);
    }
  }

  lemma AdvanceInv<I>(g: Group<I>, ready: bool)
    requires Inv(g) && AdvanceStep(g, ready).Some?
    ensures Inv(AdvanceStep(g, ready).value)
  {
    AdvanceShape(g, ready);
    AdvanceBalance(g, ready);
    AdvanceTasks(g, ready);
    AdvanceWakes(g, ready);
    AdvanceReady(g, ready);
    AdvanceOverflow(g, ready);
    AdvanceEvents(g, ready);
  }

  lemma {:induction false} RunInv<I>(g: Group<I>, acts: seq<Action<I>>)
    requires Inv(g) && Run(g, acts).Some?
    ensures Inv(Run(g, acts).value)
    decreases |acts|
  {
    if acts != [] {
      match acts[0] {
        case Env(e) => EnvInv(g, e);
        case Enter => EnterInv(g);
        case Advance(ready) => AdvanceInv(g, ready);
      }
      RunInv(Step(g, acts[0]).value, acts[1..]);
    }
  }

  ghost predicate Reachable<I>(cfg: Config, acts: seq<Action<I>>, g: Group<I>) {
    Run(Start(cfg), acts) == Some(g)
  }

  lemma {:induction false} RunKeepsConfig<I>(g: Group<I>, acts: seq<Action<I>>)
    requires Run(g, acts).Some?
    ensures Run(g, acts).value.cfg == g.cfg
    decreases |acts|
  {
    if acts != [] {
      StepKeepsConfig(g, acts[0]);
      RunKeepsConfig(Step(g, acts[0]).value, acts[1..]);
    }
  }

  lemma StepKeepsConfig<I>(g: Group<I>, a: Action<I>)
    requires Step(g, a).Some?
    ensures Step(g, a).value.cfg == g.cfg
  {
  }

  lemma ReachableInv<I>(cfg: Config, acts: seq<Action<I>>, g: Group<I>)
    requires Reachable(cfg, acts, g)
    ensures Inv(g) && g.cfg == cfg
  {
    StartInv<I>(cfg);
    RunInv(Start(cfg), acts);
    RunKeepsConfig(Start(cfg), acts);
  }

  // ----- Histories

  ghost predicate Grown<X>(s: seq<seq<X>>, t: seq<seq<X>>) {
    |s| == |t| && forall i :: 0 <= i < |s| ==> s[i] <= t[i]
  }

  ghost predicate HistoryGrown<I>(h: History<I>, h': History<I>) {
    Grown(h.accepted, h'.accepted) && Grown(h.taken, h'.taken) && Grown(h.completed, h'.completed)
  }

  /** What was accepted, installed or completed stays so in every later state. */
  lemma {:induction false} HistoriesGrow<I>(g: Group<I>, acts: seq<Action<I>>)
    requires Run(g, acts).Some?
    ensures HistoryGrown(g.h, Run(g, acts).value.h)
    decreases |acts|
  {
    if acts != [] {
      var m := Step(g, acts[0]).value;
      assert HistoryGrown(g.h, m.h);
      HistoriesGrow(m, acts[1..]);
    }
  }

  lemma {:induction false} RunJoins<I>(g: Group<I>, xs: seq<Action<I>>, ys: seq<Action<I>>)
    requires Run(g, xs).Some?
    ensures Run(g, xs + ys) == Run(Run(g, xs).value, ys)
    decreases |xs|
  {
    if xs == [] {
      assert xs + ys == ys;
    } else {
      RunJoins(Step(g, xs[0]).value, xs[1..], ys);
      JoinFirst(g, xs, ys);
    }
  }

  lemma JoinFirst<I>(g: Group<I>, xs: seq<Action<I>>, ys: seq<Action<I>>)
    requires xs != [] && Step(g, xs[0]).Some?
    ensures Run(g, xs + ys) == Run(Step(g, xs[0]).value, xs[1..] + ys)
  {
    RunOf(g, xs[0], xs[1..] + ys);
    FirstOfJoined(xs, ys);
  }

  /** The run that takes `a` first. */
  lemma RunOf<I>(g: Group<I>, a: Action<I>, rest: seq<Action<I>>)
    requires Step(g, a).Some?
    ensures Run(g, [a] + rest) == Run(Step(g, a).value, rest)
  {
    var acts := [a] + rest;
    assert acts[0] == a && acts[1..] == rest;
  }

  lemma LaterHistory<I>(cfg: Config, before: seq<Action<I>>, g: Group<I>, acts: seq<Action<I>>, g': Group<I>)
    requires Reachable(cfg, before, g) && Reachable(cfg, acts, g') && before <= acts
    ensures HistoryGrown(g.h, g'.h)
  {
    var more := acts[|before|..];
    assert acts == before + more;
    RunJoins(Start(cfg), before, more);
    HistoriesGrow(g, more);
  }

  // ----- The unchecked queue and future accesses

  /** The input of the token in hand is there. */
  lemma HandHasInput<I>(q: Queues<I>, t: Task, half: multiset<Task>, caps: seq<nat>)
    requires Balance(q, Some(t), half, caps)
    ensures t < |q.inputs| && q.inputs[t] != []
  {
    assert t in Tokens(q, Some(t)) + half;
  }

  lemma NotStuck<I>(g: Group<I>, ready: bool)
    requires Inv(g) && !g.d.pc.Idle?
    ensures AdvanceStep(g, ready).Some?
  {
    match g.d.pc
    case Installing(t) => HandHasInput(g.q, t, Half(g.e.spawner), g.cfg.caps);
    case Allocated(t) => HandHasInput(g.q, t, Half(g.e.spawner), g.cfg.caps);
    case Dequeued(t, _) => FutureThere(g, t);
    case InFuture(k) => FutureThere(g, k);
    case Completing(k) => FutureThere(g, k);
    case _ =>
  }

  /** A future is written where there is none, polled and dropped where there is one. */
  lemma FutureThere<I>(g: Group<I>, t: Task)
    requires Shape(g) && TasksOk(g) && t < |g.slots|
    ensures g.d.pc.Dequeued? && g.d.pc.t == t ==> g.slots[t].future.Uninit?
    ensures NeedsLive(g.d.pc, t) ==> g.slots[t].future.Live?
  {
    assert TaskOk(g, t);
  }

  /** `exec` never dequeues from an empty input queue, never writes over a future that was not dropped, never
      polls or drops memory that holds no future: the next step is always possible. */
  lemma ExecIsNeverStuck<I>(cfg: Config, acts: seq<Action<I>>, g: Group<I>, ready: bool)
    requires Reachable(cfg, acts, g) && !g.d.pc.Idle?
    ensures AdvanceStep(g, ready).Some?
  {
    ReachableInv(cfg, acts, g);
    NotStuck(g, ready);
  }

  lemma {:induction false} SizeBound(m: multiset<Task>, caps: seq<nat>)
    requires forall t :: t in m ==> t < |caps| && m[t] <= caps[t]
    ensures |m| <= Sum(caps)
  {
    if caps == [] {
      assert m == multiset{};
    } else {
      var b := |caps| - 1;
      var rest := m[b := 0];
      SizeBound(rest, caps[..b]);
      assert |m| == |rest| + m[b];
    }
  }

  lemma TokensBounded<I>(g: Group<I>)
    requires Inv(g)
    ensures |g.q.ready| + |g.q.overflow| + |Rest(g.q)| + (if Hand(g.d.pc).Some? then 1 else 0)
              + (if g.e.spawner.InputQueued? then 1 else 0) <= Sum(g.cfg.caps)
  {
    var m := Tokens(g.q, Hand(g.d.pc)) + Half(g.e.spawner);
    forall t | t in m ensures t < |g.cfg.caps| && m[t] <= g.cfg.caps[t] {
      assert m[t] == |g.q.inputs[t]|;
    }
    SizeBound(m, g.cfg.caps);
  }

  /** The queues are large enough: a ready or overflow queue of `Sum(caps)` elements always has room for the
      token that is pushed unchecked, and the `deferred` array of that length for the next element. */
  lemma UncheckedPushesFit<I>(cfg: Config, acts: seq<Action<I>>, g: Group<I>)
    requires Reachable(cfg, acts, g)
    ensures forall t :: 0 <= t < |cfg.caps| ==> |g.q.inputs| == |cfg.caps| && |g.q.inputs[t]| <= cfg.caps[t]
    ensures g.e.spawner.InputQueued? ==> |g.q.ready| < Sum(cfg.caps)
    ensures g.d.pc.Deferring? ==> |g.q.overflow| < Sum(cfg.caps)
    ensures g.d.pc.Collecting? && g.q.overflow != [] ==> |g.q.deferred| < Sum(cfg.caps)
  {
    ReachableInv(cfg, acts, g);
    TokensBounded(g);
  }

  // ----- Order and life cycle

  /** Per task, instances are created in the order the inputs were accepted, despite deferral; at most one is
      live, and all earlier ones were completed and dropped, each exactly once. */
  lemma InstancesInSpawnOrder<I>(cfg: Config, acts: seq<Action<I>>, g: Group<I>, t: Task)
    requires Reachable(cfg, acts, g) && t < |cfg.caps|
    ensures |g.slots| == |g.h.accepted| == |g.h.taken| == |g.h.completed| == |cfg.caps|
    ensures g.h.taken[t] <= g.h.accepted[t]
    ensures g.h.completed[t] + Current(g, t) == g.h.taken[t] && |Current(g, t)| <= 1
    ensures g.slots[t].future.Live? ==>
              g.slots[t].running && g.h.taken[t] == g.h.completed[t] + [g.slots[t].future.input]
  {
    ReachableInv(cfg, acts, g);
    assert TaskOk(g, t);
  }

  // ----- No stuck spawn, no lost wake-up

  /** Between two executions of the dispatcher (at the head of the idle loop): a token waits on the overflow
      queue only while its task runs; and unless the idle loop serves the group, a token on the ready queue has
      the interrupt pended (or about to be, or its pend has failed), and a running task whose `pending` flag is
      set, or that no poll has seen since it was installed or last woken, has the interrupt pended, or a wake
      function about to pend it. */
  lemma NothingIsStuck<I>(cfg: Config, acts: seq<Action<I>>, g: Group<I>)
    requires Reachable(cfg, acts, g) && g.d.pc.Idle?
    ensures forall t :: t in g.q.overflow ==> t < |g.slots| && g.slots[t].running
    ensures cfg.idle || g.q.ready == [] || g.e.irq || g.e.spawner.TokenQueued? || g.h.lostPend
    ensures !cfg.idle && g.e.spawner.Outside? ==> (g.h.lostPend <==> g.q.ready != [] && !g.e.irq)
    ensures forall t :: 0 <= t < |g.slots| && g.slots[t].running && g.slots[t].pending ==>
                          cfg.idle || g.e.irq || g.e.waking > 0
    ensures |g.h.events| == |g.h.seen| == |g.slots|
    ensures forall t :: 0 <= t < |g.slots| && g.slots[t].running && g.h.seen[t] != g.h.events[t] ==>
                          cfg.idle || g.e.irq || g.e.waking > 0
  {
    ReachableInv(cfg, acts, g);
    forall t | 0 <= t < |g.slots| && g.slots[t].running && g.h.seen[t] != g.h.events[t] ensures g.slots[t].pending {
      assert Unseen(g, t);
    }
    forall t | t in g.q.overflow ensures t < |g.slots| && g.slots[t].running {
      assert t in Tokens(g.q, Hand(g.d.pc)) + Half(g.e.spawner);
    }
  }

  /** When the dispatcher has nothing left to do, every input accepted by a task that is not running has been
      executed to completion, and the future of a running task has been polled after its installation and after the
      last of its wake-ups: it waits for another one. */
  lemma QuiescentMeansDone<I>(cfg: Config, acts: seq<Action<I>>, g: Group<I>, t: Task)
    requires Reachable(cfg, acts, g) && g.d.pc.Idle? && !cfg.idle && t < |cfg.caps|
    requires !g.e.irq && g.e.waking == 0 && g.e.spawner.Outside? && !g.h.lostPend
    ensures |g.slots| == |g.h.accepted| == |g.h.completed| == |cfg.caps|
    ensures !g.slots[t].running ==> g.h.completed[t] == g.h.accepted[t]
    ensures |g.h.events| == |g.h.seen| == |cfg.caps|
    ensures g.slots[t].running ==> g.slots[t].future.Live? && g.h.seen[t] == g.h.events[t]
  {
    ReachableInv(cfg, acts, g);
    assert TaskOk(g, t) && Unseen(g, t);
    if !g.slots[t].running {
      var m := Tokens(g.q, Hand(g.d.pc)) + Half(g.e.spawner);
      assert t !in g.q.overflow && g.q.ready == [] && Rest(g.q) == [];
      assert m[t] == 0;
      assert g.q.inputs[t] == [];
    }
  }

  // ----- When a failed cross-core pend strands a token

  /** A token that neither this execution nor a pended one will see. */
  predicate Stranded<I>(g: Group<I>) {
    g.q.ready != [] && !StillDraining(g) && !g.e.irq
  }

  /** A step of the dispatcher, or of others that neither queue a token nor pend. */
  predicate NobodyElsePends<I>(a: Action<I>) {
    a.Advance? || (a.Env? && (a.e.Initialize? || a.e.Spawn? || a.e.SetPending?))
  }

  /** The dispatcher pends itself in this run, because phase B has installed something. */
  predicate Repends<I>(g: Group<I>, acts: seq<Action<I>>)
    requires Run(g, acts).Some?
    decreases |acts|
  {
    acts != [] && ((g.d.pc.Repending? && acts[0].Advance?) || Repends(Step(g, acts[0]).value, acts[1..]))
  }

  lemma StepStrands<I>(g: Group<I>, a: Action<I>)
    requires Shape(g) && NobodyElsePends(a) && Step(g, a).Some?
    ensures Stranded(Step(g, a).value) <==> Stranded(g) && !(g.d.pc.Repending? && a.Advance?)
  {
  }

  lemma {:induction false} RunStrands<I>(g: Group<I>, acts: seq<Action<I>>)
    requires Inv(g) && Run(g, acts).Some? && forall i :: 0 <= i < |acts| ==> NobodyElsePends(acts[i])
    ensures Stranded(Run(g, acts).value) <==> Stranded(g) && !Repends(g, acts)
    decreases |acts|
  {
    if acts != [] {
      StepStrands(g, acts[0]);
      StepSpendsBudget(g, acts[0]);
      RunStrands(Step(g, acts[0]).value, acts[1..]);
    }
  }

  /** When exactly a failed pend leaves a token and no interrupt, once the execution in progress (if any) is over: when
      it finds a token that this execution does not drain any more, and nothing pended, and phase B does not pend.  Any
      other failed pend does no harm. */
  lemma LostPendStrands<I>(cfg: Config, before: seq<Action<I>>, g: Group<I>, n: Group<I>, acts: seq<Action<I>>,
                           z: Group<I>)
    requires Reachable(cfg, before, g)
    requires EnvStep(g, PendFails) == Some(n) && Run(n, acts) == Some(z) && z.d.pc.Idle?
    requires forall i :: 0 <= i < |acts| ==> NobodyElsePends(acts[i])
    ensures (z.q.ready != [] && !z.e.irq) <==>
            (g.q.ready != [] && !StillDraining(g) && !g.e.irq && !Repends(n, acts))
  {
    ReachableInv(cfg, before, g);
    EnvInv(g, PendFails);
    RunStrands(n, acts);
  }

  /** It does happen, in every group with an interrupt and for each of its tasks: the first spawn after initialisation,
      if its pend fails. */
  lemma FirstSpawnStranded<I>(cfg: Config, t: Task, input: I)
    requires t < |cfg.caps| && cfg.caps[t] > 0 && !cfg.idle
    ensures exists acts: seq<Action<I>>, g ::
              Reachable(cfg, acts, g) && g.d.pc.Idle? && g.q.ready == [t] && !g.e.irq
  {
    var acts := [Env(Initialize), Env(Spawn(t, input)), Env(PushToken), Env(PendFails)];
    var g0 := Start<I>(cfg);
    var g1 := Step(g0, acts[0]).value;
    var g2 := Step(g1, acts[1]).value;
    var g3 := Step(g2, acts[2]).value;
    var g4 := Step(g3, acts[3]).value;
    assert Run(g3, acts[3..]) == Some(g4) by { assert acts[3..] == [Env(PendFails)]; }
    assert Run(g2, acts[2..]) == Some(g4) by { assert acts[2..][1..] == acts[3..]; }
    assert Run(g1, acts[1..]) == Some(g4) by { assert acts[1..][1..] == acts[2..]; }
    assert Reachable(cfg, acts, g4);
  }

  /** Nothing more is taken or completed until somebody pends the dispatcher. */
  lemma {:induction false} StrandedUntilPend<I>(g: Group<I>, acts: seq<Action<I>>)
    requires g.d.pc.Idle? && !g.cfg.idle && !g.e.irq && Run(g, acts).Some?
    requires forall i :: 0 <= i < |acts| ==> !(acts[i].Env? && (acts[i].e.Pend? || acts[i].e.WakePend?))
    ensures var n := Run(g, acts).value;
            && n.d.pc.Idle? && !n.e.irq && |n.q.ready| >= |g.q.ready|
            && n.h.taken == g.h.taken && n.h.completed == g.h.completed
    decreases |acts|
  {
    if acts != [] {
      StrandedUntilPend(Step(g, acts[0]).value, acts[1..]);
    }
  }

  // ----- An execution of the dispatcher is bounded, however often it is preempted

  function Free<I>(slots: seq<ExecSlot<I>>): nat {
    if slots == [] then 0 else Free(slots[1..]) + if slots[0].running then 0 else 1
  }

  lemma {:induction false} FreeAfter<I>(slots: seq<ExecSlot<I>>, t: Task, s: ExecSlot<I>)
    requires t < |slots|
    ensures Free(slots[t := s]) == Free(slots) - (if slots[t].running then 0 else 1) + (if s.running then 0 else 1)
  {
    if t > 0 {
      FreeAfter(slots[1..], t - 1, s);
      assert slots[t := s][1..] == slots[1..][t - 1 := s];
    } else {
      assert slots[t := s][1..] == slots[1..];
    }
  }

  lemma {:induction false} FreeBound<I>(slots: seq<ExecSlot<I>>)
    ensures Free(slots) <= |slots|
  {
    if slots != [] { FreeBound(slots[1..]); }
  }

  /** What the bound depends on: where `exec` stands, the number of tasks, how many of them are not running, the
      lengths of the overflow queue, of `deferred` and of its unprocessed part, and the sum of the capacities. */
  datatype Load<I> = Load(
    pc: Pc<I>, phaseB: bool, tasks: nat, free: nat, overflow: nat, deferred: nat, rest: nat, sum: nat)

  function LoadOf<I>(g: Group<I>): Load<I> {
    Load(g.d.pc, g.d.phaseB, |g.slots|, Free(g.slots), |g.q.overflow|, |g.q.deferred|, |Rest(g.q)|, Sum(g.cfg.caps))
  }

  /** An upper bound on the number of steps before `exec` returns.  In phase A each token either starts a task
      that was not running or moves to the overflow queue. */
  function Budget<I>(l: Load<I>): int {
    var drain := 5 + 7 * l.sum + 5 * l.tasks + 8 * (l.free + l.sum - l.overflow);
    var poll := 4 + 7 * l.overflow;
    var reinstall := 6 * l.rest;
    match l.pc
    case Idle => 0
    case Repending => 1
    case Reinstalling => reinstall + 2
    case Collecting => 3 + 6 * l.deferred + 7 * l.overflow
    case Polling(k) => poll + if k < l.tasks then 5 * (l.tasks - k) else 0
    case SawRunning(k) => poll + 5 * (l.tasks - k) - 1
    case InFuture(k) => poll + 5 * (l.tasks - k) - 2
    case Completing(k) => poll + 5 * (l.tasks - k) - 3
    case DroppedFuture(k) => poll + 5 * (l.tasks - k) - 4
    case Draining => drain + 4
    case Installing(_) => if l.phaseB then reinstall + 7 else drain + 3
    case Allocated(_) => if l.phaseB then reinstall + 6 else drain + 10
    case Dequeued(_, _) => if l.phaseB then reinstall + 5 else drain + 9
    case Written(_) => if l.phaseB then reinstall + 4 else drain + 8
    case Deferring(_) => if l.phaseB then reinstall + 6 else drain + 2
  }

  lemma EnvKeepsLoad<I>(g: Group<I>, a: EnvAction<I>)
    requires EnvStep(g, a).Some?
    ensures LoadOf(EnvStep(g, a).value) == LoadOf(g)
  {
    if a.SetPending? { FreeAfter(g.slots, a.t, g.slots[a.t].(pending := true)); }
  }

  /** Flags: `try_allocate` is the only step that takes a free slot. */
  lemma InstallSpends<I>(g: Group<I>, ready: bool)
    requires AdvanceStep(g, ready).Some?
    requires g.d.pc.Installing? || g.d.pc.Allocated? || g.d.pc.Dequeued? || g.d.pc.Written?
    ensures Budget(LoadOf(AdvanceStep(g, ready).value)) < Budget(LoadOf(g))
  {
    match g.d.pc
    case Installing(t) => FreeAfter(g.slots, t, g.slots[t].(running := true));
    case Dequeued(t, x) => FreeAfter(g.slots, t, g.slots[t].(future := Live(x)));
    case Written(t) => FreeAfter(g.slots, t, g.slots[t].(pending := true));
    case Allocated(_) =>
  }

  lemma PollSpends<I>(g: Group<I>, ready: bool)
    requires AdvanceStep(g, ready).Some? && Shape(g)
    requires g.d.pc.Polling? || g.d.pc.SawRunning? || g.d.pc.InFuture? || g.d.pc.Completing? || g.d.pc.DroppedFuture?
    ensures Budget(LoadOf(AdvanceStep(g, ready).value)) < Budget(LoadOf(g))
  {
    var g' := AdvanceStep(g, ready).value;
    assert |g'.slots| == |g.slots| && g'.q.overflow == g.q.overflow;
  }

  lemma QueueSpends<I>(g: Group<I>, ready: bool)
    requires AdvanceStep(g, ready).Some? && Shape(g) && |g.q.overflow| <= Sum(g.cfg.caps)
    requires g.d.pc.Collecting? || g.d.pc.Reinstalling? || g.d.pc.Repending?
    ensures Budget(LoadOf(AdvanceStep(g, ready).value)) < Budget(LoadOf(g))
  {
  }

  lemma DrainSpends<I>(g: Group<I>, ready: bool)
    requires AdvanceStep(g, ready).Some? && Shape(g) && |g.q.overflow| <= Sum(g.cfg.caps)
    requires g.d.pc.Draining? || g.d.pc.Deferring?
    ensures Budget(LoadOf(AdvanceStep(g, ready).value)) < Budget(LoadOf(g))
  {
    var g' := AdvanceStep(g, ready).value;
    assert g'.slots == g.slots && g'.cfg == g.cfg && g'.d.phaseB == g.d.phaseB;
  }

  lemma AdvanceSpendsBudget<I>(g: Group<I>, ready: bool)
    requires Shape(g) && AdvanceStep(g, ready).Some? && |g.q.overflow| <= Sum(g.cfg.caps)
    ensures Budget(LoadOf(AdvanceStep(g, ready).value)) < Budget(LoadOf(g))
  {
    match g.d.pc
    case Installing(_) => InstallSpends(g, ready);
    case Allocated(_) => InstallSpends(g, ready);
    case Dequeued(_, _) => InstallSpends(g, ready);
    case Written(_) => InstallSpends(g, ready);
    case Draining => DrainSpends(g, ready);
    case Deferring(_) => DrainSpends(g, ready);
    case Collecting => QueueSpends(g, ready);
    case Reinstalling => QueueSpends(g, ready);
    case Repending => QueueSpends(g, ready);
    case Idle =>
    case _ => PollSpends(g, ready);
  }

  function Advances<I>(acts: seq<Action<I>>): nat {
    if acts == [] then 0 else Advances(acts[1..]) + if acts[0].Advance? then 1 else 0
  }

  lemma StepSpendsBudget<I>(g: Group<I>, a: Action<I>)
    requires Inv(g) && Step(g, a).Some? && !a.Enter?
    ensures Inv(Step(g, a).value)
    ensures Budget(LoadOf(Step(g, a).value)) + (if a.Advance? then 1 else 0) <= Budget(LoadOf(g))
  {
    match a
    case Env(e) =>
      EnvInv(g, e);
      EnvKeepsLoad(g, e);
    case Advance(ready) =>
      TokensBounded(g);
      AdvanceInv(g, ready);
      AdvanceSpendsBudget(g, ready);
  }

  lemma BudgetNonNegative<I>(g: Group<I>)
    requires Inv(g)
    ensures Budget(LoadOf(g)) >= 0
  {
    TokensBounded(g);
  }

  lemma {:induction false} RunSpendsBudget<I>(g: Group<I>, acts: seq<Action<I>>)
    requires Inv(g) && Run(g, acts).Some? && forall i :: 0 <= i < |acts| ==> !acts[i].Enter?
    ensures Advances(acts) <= Budget(LoadOf(g))
    decreases |acts|
  {
    if acts == [] {
      BudgetNonNegative(g);
    } else {
      StepSpendsBudget(g, acts[0]);
      RunSpendsBudget(Step(g, acts[0]).value, acts[1..]);
    }
  }

  /** One execution of the dispatcher takes a number of steps that is bounded by the queue capacities and the
      number of tasks alone: spawns and wake-ups that preempt it cannot keep it going. */
  lemma ExecIsBounded<I>(cfg: Config, before: seq<Action<I>>, g: Group<I>, acts: seq<Action<I>>)
    requires Reachable(cfg, before, g) && EnterStep(g).Some?
    requires Run(EnterStep(g).value, acts).Some? && forall i :: 0 <= i < |acts| ==> !acts[i].Enter?
    ensures Advances(acts) <= 15 * Sum(cfg.caps) + 13 * |cfg.caps| + 9
  {
    ReachableInv(cfg, before, g);
    EnterInv(g);
    RunSpendsBudget(EnterStep(g).value, acts);
    FreeBound(g.slots);
  }
}
