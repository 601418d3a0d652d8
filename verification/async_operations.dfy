/** What each operation of an async priority group does, in every reachable state, in terms of queues, slots and
    counters; and that a wake-up leads to a poll. */
module AsyncOperations {
  import opened Wrappers
  import opened AsyncDispatch
  import opened AsyncInvariant
  import opened AsyncTheorems

  // ----- `spawn` and the wake functions

  /** `spawn` accepts the input if and only if the system is initialised and the task's input queue has room. */
  lemma SpawnAcceptsIff<I>(cfg: Config, acts: seq<Action<I>>, g: Group<I>, t: Task, input: I)
    requires Reachable(cfg, acts, g) && g.e.spawner.Outside? && t < |cfg.caps|
    ensures EnvStep(g, Spawn(t, input)).Some? && t < |g.q.inputs| && t < |g.h.accepted|
    ensures var n := EnvStep(g, Spawn(t, input)).value;
            if g.e.initialized && |g.q.inputs[t]| < cfg.caps[t] then
              && n.q == g.q.(inputs := g.q.inputs[t := g.q.inputs[t] + [input]])
              && n.h == g.h.(accepted := g.h.accepted[t := g.h.accepted[t] + [input]])
              && n.e == g.e.(spawner := InputQueued(t)) && n.slots == g.slots && n.d == g.d
            else n == g
  {
    ReachableInv(cfg, acts, g);
  }

  /** An accepted spawn queues the task's token last, and pends the dispatcher. */
  lemma SpawnGoesOn<I>(g: Group<I>)
    ensures g.e.spawner.InputQueued? ==>
              EnvStep(g, PushToken) ==
              Some(g.(q := g.q.(ready := g.q.ready + [g.e.spawner.t]), e := g.e.(spawner := TokenQueued)))
    ensures g.e.spawner.TokenQueued? ==>
              && EnvStep(g, Pend).Some? && EnvStep(g, PendFails).Some?
              && var n, f := EnvStep(g, Pend).value, EnvStep(g, PendFails).value;
              && n.e == g.e.(irq := !g.cfg.idle, spawner := Outside) && f.e == g.e.(spawner := Outside)
              && n == g.(e := n.e, h := g.h.(lostPend := false))
              && f == g.(e := f.e, h := g.h.(lostPend := f.h.lostPend))
  {
  }

  /** A wake of task `t` sets the flag of its own slot, and nobody else's, before it pends. */
  lemma WakeMarksOwnSlot<I>(cfg: Config, acts: seq<Action<I>>, g: Group<I>, t: Task)
    requires Reachable(cfg, acts, g) && t < |cfg.caps|
    ensures EnvStep(g, SetPending(t)).Some? && |g.slots| == |g.h.events| == |cfg.caps|
    ensures var n := EnvStep(g, SetPending(t)).value;
            && n.q == g.q && n.d == g.d && n.e == g.e.(waking := g.e.waking + 1)
            && |n.slots| == |g.slots| && n.h == g.h.(events := n.h.events) && |n.h.events| == |g.h.events|
            && n.slots[t] == g.slots[t].(pending := true) && n.h.events[t] == g.h.events[t] + 1
            && forall k :: 0 <= k < |g.slots| && k != t ==>
                             n.slots[k] == g.slots[k] && n.h.events[k] == g.h.events[k]
  {
    ReachableInv(cfg, acts, g);
  }

  lemma WakePends<I>(g: Group<I>)
    requires g.e.waking > 0
    ensures EnvStep(g, WakePend) ==
            Some(g.(e := g.e.(waking := g.e.waking - 1, irq := !g.cfg.idle), h := g.h.(lostPend := false)))
  {
  }

  /** `exec` begins exactly when the interrupt is pended, or the idle loop comes round. */
  lemma ExecBeginsIff<I>(g: Group<I>)
    requires g.d.pc.Idle?
    ensures EnterStep(g) == if g.e.irq || g.cfg.idle
                            then Some(g.(e := g.e.(irq := false), d := g.d.(pc := Draining, phaseB := false))) else None
  {
  }

  // ----- Queues of the dispatcher

  /** Tokens are taken first in, first out; phase A ends when none is left. */
  lemma DrainTakesOldest<I>(g: Group<I>)
    requires g.d.pc.Draining?
    ensures AdvanceStep(g, false) ==
            if g.q.ready == [] then Some(g.(d := g.d.(pc := Polling(0))))
            else Some(g.(q := g.q.(ready := g.q.ready[1..]), d := g.d.(pc := Installing(g.q.ready[0]))))
  {
  }

  /** Phase B goes once through what was on the overflow queue, in order. */
  function CollectCall<I>(g: Group<I>): Option<Group<I>>
    decreases |g.q.overflow|
  {
    if !g.d.pc.Collecting? then Some(g)
    else
      match AdvanceStep(g, false)
      case None => None
      case Some(n) => if n.d.pc.Collecting? && |n.q.overflow| >= |g.q.overflow| then None
                      else if n.d.pc.Collecting? then CollectCall(n) else Some(n)
  }

  lemma {:induction false} CollectMovesAll<I>(g: Group<I>)
    requires g.d.pc.Collecting?
    ensures CollectCall(g) == Some(g.(d := g.d.(pc := Reinstalling),
                                      q := g.q.(overflow := [], deferred := g.q.deferred + g.q.overflow)))
    decreases |g.q.overflow|
  {
    if g.q.overflow == [] {
      assert g.q.deferred + [] == g.q.deferred;
    } else {
      var n := AdvanceStep(g, false).value;
      CollectMovesAll(n);
      assert n.q.deferred + n.q.overflow == g.q.deferred + g.q.overflow;
    }
  }

  lemma ReinstallTakesNext<I>(g: Group<I>)
    requires g.d.pc.Reinstalling?
    ensures AdvanceStep(g, false) ==
            if g.q.next < |g.q.deferred| then
              Some(g.(q := g.q.(next := g.q.next + 1), d := g.d.(pc := Installing(g.q.deferred[g.q.next]))))
            else Some(g.(d := g.d.(pc := if g.d.installed && !g.cfg.idle then Repending else Idle)))
    ensures g.d.installed && !g.cfg.idle && g.q.next >= |g.q.deferred| ==>
              AdvanceStep(AdvanceStep(g, false).value, false) ==
              Some(g.(d := g.d.(pc := Idle), e := g.e.(irq := true), h := g.h.(lostPend := false)))
  {
  }

  // ----- The install function

  /** An install that nobody interrupts. */
  function InstallCall<I>(g: Group<I>): Option<Group<I>> {
    match AdvanceStep(g, false)
    case None => None
    case Some(m) =>
      if m.d.pc.Deferring? then AdvanceStep(m, false)
      else
        match AdvanceStep(m, false)
        case None => None
        case Some(n) => match AdvanceStep(n, false) case None => None case Some(k) => AdvanceStep(k, false)
  }

  /** A task that is not running gets the oldest of its inputs, as a live future that waits to be polled; the token of a
      running one goes to the end of the overflow queue. */
  lemma InstallsOrDefers<I>(cfg: Config, acts: seq<Action<I>>, g: Group<I>, t: Task)
    requires Reachable(cfg, acts, g) && g.d.pc == Installing(t)
    ensures t < |g.slots| == |g.q.inputs| == |g.h.taken| == |g.h.events| && InstallCall(g).Some?
    ensures var n := InstallCall(g).value;
            && n.e == g.e && n.d.pc == (if g.d.phaseB then Reinstalling else Draining) && n.d.phaseB == g.d.phaseB
            && if g.slots[t].running then
                 && n.q == g.q.(overflow := g.q.overflow + [t]) && n.slots == g.slots && n.h == g.h
                 && n.d.installed == g.d.installed
               else
                 && g.q.inputs[t] != [] && n.q == g.q.(inputs := g.q.inputs[t := g.q.inputs[t][1..]])
                 && n.slots == g.slots[t := ExecSlot(Live(g.q.inputs[t][0]), true, true)]
                 && n.h == g.h.(taken := g.h.taken[t := g.h.taken[t] + [g.q.inputs[t][0]]],
                                events := g.h.events[t := g.h.events[t] + 1])
                 && n.d.installed == (g.d.installed || g.d.phaseB)
  {
    ReachableInv(cfg, acts, g);
    HandHasInput(g.q, t, Half(g.e.spawner), g.cfg.caps);
    if !g.slots[t].running {
      assert TaskOk(g, t);
      InstallsFresh(g, t);
    }
  }

  lemma InstallsFresh<I>(g: Group<I>, t: Task)
    requires t < |g.slots| == |g.q.inputs| == |g.h.taken| == |g.h.events| && g.d.pc == Installing(t)
    requires !g.slots[t].running && g.slots[t].future.Uninit? && g.q.inputs[t] != []
    ensures InstallCall(g).Some?
    ensures var n := InstallCall(g).value;
            && n.e == g.e && n.q == g.q.(inputs := g.q.inputs[t := g.q.inputs[t][1..]])
            && n.slots == g.slots[t := ExecSlot(Live(g.q.inputs[t][0]), true, true)]
            && n.h == g.h.(taken := g.h.taken[t := g.h.taken[t] + [g.q.inputs[t][0]]],
                           events := g.h.events[t := g.h.events[t] + 1])
            && n.d == Dispatcher(if g.d.phaseB then Reinstalling else Draining, g.d.phaseB, g.d.installed || g.d.phaseB)
  {
    var input := g.q.inputs[t][0];
    var m := g.(slots := g.slots[t := g.slots[t].(running := true)], d := g.d.(pc := Allocated(t)));
    var n := m.(q := g.q.(inputs := g.q.inputs[t := g.q.inputs[t][1..]]),
                h := g.h.(taken := g.h.taken[t := g.h.taken[t] + [input]]), d := g.d.(pc := Dequeued(t, input)));
    var k := n.(slots := g.slots[t := ExecSlot(Live(input), true, g.slots[t].pending)], d := g.d.(pc := Written(t)));
    assert AdvanceStep(g, false) == Some(m);
    assert AdvanceStep(m, false) == Some(n);
    assert AdvanceStep(n, false) == Some(k) by {
      assert m.slots[t := ExecSlot(Live(input), true, g.slots[t].pending)] == k.slots;
    }
    assert k.slots[t := ExecSlot(Live(input), true, true)] == g.slots[t := ExecSlot(Live(input), true, true)];
  }

  // ----- A poll

  /** The turn of slot `k` in the poll phase, if nobody interrupts it; `ready` is what its future returns. */
  function PollCall<I>(g: Group<I>, ready: bool): Option<Group<I>> {
    match AdvanceStep(g, false)
    case None => None
    case Some(m) =>
      if !m.d.pc.SawRunning? then Some(m)
      else
        match AdvanceStep(m, false)
        case None => None
        case Some(n) =>
          if !n.d.pc.InFuture? then Some(n)
          else
            match AdvanceStep(n, ready)
            case None => None
            case Some(p) =>
              if !ready then Some(p)
              else match AdvanceStep(p, false) case None => None case Some(q) => AdvanceStep(q, false)
  }

  /** An instance is polled if and only if it runs and its flag is set, which is then cleared.  It stays, or, if its
      future is ready, it is completed with its own input, dropped and released. */
  lemma PollsRunningAndPending<I>(cfg: Config, acts: seq<Action<I>>, g: Group<I>, k: nat, ready: bool)
    requires Reachable(cfg, acts, g) && g.d.pc == Polling(k) && k < |g.slots|
    ensures |g.slots| == |g.h.seen| == |g.h.events| == |g.h.completed| && PollCall(g, ready).Some?
    ensures var n, s := PollCall(g, ready).value, g.slots[k];
            && n.q == g.q && n.e == g.e && n.d == g.d.(pc := Polling(k + 1))
            && if !s.running || !s.pending then n.slots == g.slots && n.h == g.h
               else
                 && s.future.Live?
                 && n.slots == g.slots[k := if ready then ExecSlot(Uninit, false, false) else s.(pending := false)]
                 && n.h == g.h.(seen := g.h.seen[k := g.h.events[k]],
                                completed := if ready
                                             then g.h.completed[k := g.h.completed[k] + [s.future.input]]
                                             else g.h.completed)
  {
    SlotOf(cfg, acts, g, k);
    if g.slots[k].running && g.slots[k].pending { PollsFuture(g, k, ready); }
  }

  lemma SlotOf<I>(cfg: Config, acts: seq<Action<I>>, g: Group<I>, t: Task)
    requires Reachable(cfg, acts, g) && t < |g.slots|
    ensures |g.slots| == |g.h.seen| == |g.h.events| == |g.h.completed| == |g.h.taken|
    ensures g.slots[t].running && !Between(g.d.pc, t) ==> g.slots[t].future.Live?
    ensures g.slots[t].future.Live? ==>
              g.slots[t].running && !Between(g.d.pc, t) && |g.h.completed[t]| + 1 == |g.h.taken[t]|
  {
    ReachableInv(cfg, acts, g);
    assert TaskOk(g, t);
  }

  lemma PollsFuture<I>(g: Group<I>, k: nat, ready: bool)
    requires k < |g.slots| == |g.h.seen| == |g.h.events| == |g.h.completed| && g.d.pc == Polling(k)
    requires g.slots[k].running && g.slots[k].pending && g.slots[k].future.Live?
    ensures PollCall(g, ready).Some?
    ensures var n, s := PollCall(g, ready).value, g.slots[k];
            && n.q == g.q && n.e == g.e && n.d == g.d.(pc := Polling(k + 1))
            && n.slots == g.slots[k := if ready then ExecSlot(Uninit, false, false) else s.(pending := false)]
            && n.h == g.h.(seen := g.h.seen[k := g.h.events[k]],
                           completed := if ready then g.h.completed[k := g.h.completed[k] + [s.future.input]]
                                        else g.h.completed)
  {
    var s := g.slots[k];
    var m := g.(d := g.d.(pc := SawRunning(k)));
    var n := g.(slots := g.slots[k := s.(pending := false)], d := g.d.(pc := InFuture(k)));
    var p := n.(h := g.h.(seen := g.h.seen[k := g.h.events[k]]),
                d := g.d.(pc := if ready then Completing(k) else Polling(k + 1)));
    assert AdvanceStep(g, false) == Some(m);
    assert AdvanceStep(m, false) == Some(n);
    assert AdvanceStep(n, ready) == Some(p);
    if ready {
      var q := p.(h := p.h.(completed := g.h.completed[k := g.h.completed[k] + [s.future.input]]),
                  slots := g.slots[k := ExecSlot(Uninit, true, false)], d := g.d.(pc := DroppedFuture(k)));
      assert AdvanceStep(p, false) == Some(q) by {
        assert p.slots[k := ExecSlot(Uninit, true, false)] == q.slots;
      }
      assert q.slots[k := ExecSlot(Uninit, false, false)] == g.slots[k := ExecSlot(Uninit, false, false)];
    }
  }

  lemma PollPhaseEnds<I>(g: Group<I>)
    requires g.d.pc == Polling(|g.slots|)
    ensures AdvanceStep(g, false) ==
            Some(g.(d := Dispatcher(Collecting, true, false), q := g.q.(deferred := [], next := 0)))
  {
  }

  // ----- A wake-up leads to a poll

  /** The future of `t` has been polled since its `count`-th event, or all its instances up to the `taken`-th are
      over. */
  predicate SeenOrOver<I>(g: Group<I>, t: Task, count: nat, taken: nat)
    requires t < |g.h.seen| && t < |g.h.completed|
  {
    g.h.seen[t] >= count || |g.h.completed[t]| >= taken
  }

  predicate Marked<I>(g: Group<I>, t: Task)
    requires t < |g.slots|
  {
    g.slots[t].running && g.slots[t].pending && g.d.pc != DroppedFuture(t)
  }

  /** What the wake-up has come to: it was seen, or it is marked, or the poll is about to start. */
  ghost predicate Going<I>(g: Group<I>, t: Task, count: nat, taken: nat) {
    && Shape(g) && t < |g.slots| && g.h.events[t] >= count && |g.h.completed[t]| + 1 >= taken
    && (SeenOrOver(g, t, count, taken) || Marked(g, t) || g.d.pc == InFuture(t))
  }

  /** ... and this execution has not passed it. */
  ghost predicate Ahead<I>(g: Group<I>, t: Task, count: nat, taken: nat) {
    && Going(g, t, count, taken)
    && (SeenOrOver(g, t, count, taken) || (Marked(g, t) && !g.d.phaseB && !Passed(g, t)) || g.d.pc == InFuture(t))
  }

  /** Others leave slot `t` as it is, but for its flag. */
  lemma EnvKeepsSlot<I>(g: Group<I>, a: EnvAction<I>, n: Group<I>, t: Task)
    requires Shape(g) && Shape(n) && t < |g.slots| && EnvStep(g, a) == Some(n)
    ensures n.d == g.d && |n.slots| == |g.slots| && n.slots[t].running == g.slots[t].running
    ensures (g.slots[t].pending ==> n.slots[t].pending) && n.h.events[t] >= g.h.events[t]
    ensures n.h.seen == g.h.seen && n.h.completed == g.h.completed
  {
  }

  lemma EnvGoing<I>(g: Group<I>, a: EnvAction<I>, n: Group<I>, t: Task, count: nat, taken: nat)
    requires Going(g, t, count, taken) && Shape(n) && EnvStep(g, a) == Some(n)
    ensures Going(n, t, count, taken)
    ensures Ahead(g, t, count, taken) ==> Ahead(n, t, count, taken)
  {
    EnvKeepsSlot(g, a, n, t);
  }

  /** What a step of the dispatcher does to slot `t`. */
  lemma AdvanceKeepsSlot<I>(g: Group<I>, ready: bool, n: Group<I>, t: Task)
    requires Shape(g) && Shape(n) && t < |g.slots| && AdvanceStep(g, ready) == Some(n)
    ensures |n.slots| == |g.slots| && n.h.events[t] >= g.h.events[t]
    ensures n.h.seen[t] == if g.d.pc == InFuture(t) then g.h.events[t] else g.h.seen[t]
    ensures |n.h.completed[t]| == |g.h.completed[t]| + if g.d.pc == Completing(t) then 1 else 0
    ensures g.slots[t].running && g.d.pc != DroppedFuture(t) ==> n.slots[t].running
    ensures g.slots[t].pending && g.d.pc != SawRunning(t) ==> n.slots[t].pending
    ensures n.d.pc == DroppedFuture(t) ==> g.d.pc == Completing(t)
    ensures g.d.pc == SawRunning(t) && g.slots[t].pending ==> n.d.pc == InFuture(t)
  {
    if InPoll(g.d.pc) {
      PollKeepsSlot(g, ready, n, t);
    } else if InInstall(g.d.pc) {
      InstallKeepsSlot(g, ready, n, t);
    }
  }

  lemma PollKeepsSlot<I>(g: Group<I>, ready: bool, n: Group<I>, t: Task)
    requires Shape(g) && Shape(n) && t < |g.slots| && AdvanceStep(g, ready) == Some(n) && InPoll(g.d.pc)
    ensures |n.slots| == |g.slots| && n.h.events == g.h.events
    ensures n.h.seen[t] == if g.d.pc == InFuture(t) then g.h.events[t] else g.h.seen[t]
    ensures |n.h.completed[t]| == |g.h.completed[t]| + if g.d.pc == Completing(t) then 1 else 0
    ensures g.slots[t].running && g.d.pc != DroppedFuture(t) ==> n.slots[t].running
    ensures g.slots[t].pending && g.d.pc != SawRunning(t) ==> n.slots[t].pending
    ensures n.d.pc == DroppedFuture(t) ==> g.d.pc == Completing(t)
    ensures g.d.pc == SawRunning(t) && g.slots[t].pending ==> n.d.pc == InFuture(t)
  {
  }

  lemma InstallKeepsSlot<I>(g: Group<I>, ready: bool, n: Group<I>, t: Task)
    requires Shape(g) && Shape(n) && t < |g.slots| && AdvanceStep(g, ready) == Some(n) && InInstall(g.d.pc)
    ensures |n.slots| == |g.slots| && n.h.events[t] >= g.h.events[t] && n.h.seen == g.h.seen
    ensures n.h.completed == g.h.completed && !n.d.pc.DroppedFuture?
    ensures (g.slots[t].running ==> n.slots[t].running) && (g.slots[t].pending ==> n.slots[t].pending)
  {
  }

  lemma AdvanceGoing<I>(g: Group<I>, ready: bool, n: Group<I>, t: Task, count: nat, taken: nat)
    requires Going(g, t, count, taken) && Shape(n) && AdvanceStep(g, ready) == Some(n)
    ensures Going(n, t, count, taken)
  {
    AdvanceKeepsSlot(g, ready, n, t);
  }

  lemma AdvancePasses<I>(g: Group<I>, ready: bool, n: Group<I>, t: Task)
    requires Shape(g) && Shape(n) && t < |g.slots| && AdvanceStep(g, ready) == Some(n)
    requires !g.d.phaseB && !Passed(g, t) && g.slots[t].running && g.d.pc != DroppedFuture(t)
    ensures (!n.d.phaseB && !Passed(n, t)) || g.d.pc == SawRunning(t) || g.d.pc == Completing(t)
  {
  }

  lemma AdvanceAhead<I>(g: Group<I>, ready: bool, n: Group<I>, t: Task, count: nat, taken: nat)
    requires Ahead(g, t, count, taken) && Shape(n) && AdvanceStep(g, ready) == Some(n)
    ensures Ahead(n, t, count, taken)
  {
    AdvanceGoing(g, ready, n, t, count, taken);
    AdvanceKeepsSlot(g, ready, n, t);
    if Marked(g, t) && !g.d.phaseB && !Passed(g, t) { AdvancePasses(g, ready, n, t); }
  }

  lemma {:induction false} RunGoing<I>(g: Group<I>, acts: seq<Action<I>>, t: Task, count: nat, taken: nat)
    requires Inv(g) && Going(g, t, count, taken) && Run(g, acts).Some?
    ensures Inv(Run(g, acts).value) && Going(Run(g, acts).value, t, count, taken)
    decreases |acts|
  {
    if acts != [] {
      match acts[0] {
        case Env(a) =>
          EnvInv(g, a);
          EnvGoing(g, a, Step(g, acts[0]).value, t, count, taken);
        case Enter =>
          EnterInv(g);
        case Advance(ready) =>
          AdvanceInv(g, ready);
          AdvanceGoing(g, ready, Step(g, acts[0]).value, t, count, taken);
      }
      RunGoing(Step(g, acts[0]).value, acts[1..], t, count, taken);
    }
  }

  lemma {:induction false} RunAhead<I>(g: Group<I>, acts: seq<Action<I>>, t: Task, count: nat, taken: nat)
    requires Inv(g) && Ahead(g, t, count, taken) && Run(g, acts).Some?
    requires forall i :: 0 <= i < |acts| ==> !acts[i].Enter?
    ensures Ahead(Run(g, acts).value, t, count, taken)
    decreases |acts|
  {
    if acts != [] {
      match acts[0] {
        case Env(a) =>
          EnvInv(g, a);
          EnvGoing(g, a, Step(g, acts[0]).value, t, count, taken);
        case Advance(ready) =>
          AdvanceInv(g, ready);
          AdvanceAhead(g, ready, Step(g, acts[0]).value, t, count, taken);
      }
      RunAhead(Step(g, acts[0]).value, acts[1..], t, count, taken);
    }
  }

  /** Task `t` is woken in any state `g` while its future lives.  Then by the end `z` of the next execution that
      begins after it, whatever happens before (`xs`) and meanwhile (`ys`), its future has been polled since the wake-
      up, or that instance is over. */
  lemma WakeIsSeen<I>(cfg: Config, before: seq<Action<I>>, g: Group<I>, t: Task, xs: seq<Action<I>>, m: Group<I>,
                      ys: seq<Action<I>>, z: Group<I>)
    requires Reachable(cfg, before, g) && t < |g.slots| && g.slots[t].future.Live?
    requires EnvStep(g, SetPending(t)).Some? && Run(EnvStep(g, SetPending(t)).value, xs) == Some(m)
    requires EnterStep(m).Some? && Run(EnterStep(m).value, ys) == Some(z) && z.d.pc.Idle?
    requires forall i :: 0 <= i < |ys| ==> !ys[i].Enter?
    ensures t < |g.h.events| && t < |g.h.taken| && t < |z.h.seen| && t < |z.h.completed|
    ensures z.h.seen[t] >= g.h.events[t] + 1 || |z.h.completed[t]| >= |g.h.taken[t]|
  {
    ReachableInv(cfg, before, g);
    var n := EnvStep(g, SetPending(t)).value;
    EnvInv(g, SetPending(t));
    var count, taken := g.h.events[t] + 1, |g.h.taken[t]|;
    SlotOf(cfg, before, g, t);
    WakeGoing(g, t, n);
    RunGoing(n, xs, t, count, taken);
    EnterInv(m);
    EnterAhead(m, t, count, taken);
    RunAhead(EnterStep(m).value, ys, t, count, taken);
    AheadAtEnd(z, t, count, taken);
  }

  lemma WakeGoing<I>(g: Group<I>, t: Task, n: Group<I>)
    requires Shape(g) && Shape(n) && t < |g.slots| && EnvStep(g, SetPending(t)) == Some(n)
    requires g.slots[t].running && !Between(g.d.pc, t) && |g.h.completed[t]| + 1 == |g.h.taken[t]|
    ensures Going(n, t, g.h.events[t] + 1, |g.h.taken[t]|)
  {
  }

  lemma EnterAhead<I>(m: Group<I>, t: Task, count: nat, taken: nat)
    requires Going(m, t, count, taken) && EnterStep(m).Some? && Shape(EnterStep(m).value)
    ensures Ahead(EnterStep(m).value, t, count, taken)
  {
  }

  lemma AheadAtEnd<I>(z: Group<I>, t: Task, count: nat, taken: nat)
    requires Ahead(z, t, count, taken) && z.d.pc.Idle?
    ensures SeenOrOver(z, t, count, taken)
  {
  }
}
