/** The emitted code of one async priority group, as it is written: queues, flags and futures updated in place by a
    dispatcher with loops, by `spawn` and by the wake functions.  Between any two of the dispatcher's accesses any
    number of spawns and wake-ups can happen.  Every method is proved to take steps of the machine of
    async_dispatch.dfy, so the theorems of async_theorems.dfy hold of this code. */
module AsyncRuntime {
  import opened Wrappers
  import opened AsyncDispatch
  import AsyncInvariant
  import T = AsyncTheorems

  /** `rticx_async::executor::ExecSlot`. */
  class Slot<I> {
    var future: Future<I>
    var running: bool
    var pending: bool

    constructor ()
      ensures Value() == ExecSlot(Uninit, false, false)
    {
      future, running, pending := Uninit, false, false;
    }

    function Value(): ExecSlot<I>
      reads this
    {
      ExecSlot(future, running, pending)
    }

    /** `compare_exchange(false, true)` on `running`. */
    method TryAllocate() returns (ok: bool)
      modifies `running
      ensures ok == !old(running) && running
    {
      if running {
        return false;
      }
      running := true;
      return true;
    }

    /** `compare_exchange(true, false)` on `pending`. */
    method CheckAndClearPending() returns (ok: bool)
      modifies `pending
      ensures ok == old(pending) && !pending
    {
      if !pending {
        return false;
      }
      pending := false;
      return true;
    }
  }

  lemma StepReaches<I>(cfg: Config, acts: seq<Action<I>>, g: Group<I>, a: Action<I>)
    requires T.Reachable(cfg, acts, g) && Step(g, a).Some?
    ensures T.Reachable(cfg, acts + [a], Step(g, a).value)
    ensures a.Env? ==> Measure(Step(g, a).value) == Measure(g)
    ensures a.Advance? ==> Measure(Step(g, a).value) < Measure(g)
    ensures 0 <= Measure(Step(g, a).value)
  {
    T.RunJoins(Start(cfg), acts, [a]);
    assert [a][1..] == [];
    T.ReachableInv(cfg, acts, g);
    match a {
      case Env(e) =>
        T.EnvInv(g, e);
        T.EnvKeepsLoad(g, e);
      case Advance(_) => T.StepSpendsBudget(g, a);
      case Enter => T.EnterInv(g);
    }
    T.BudgetNonNegative(Step(g, a).value);
  }

  /** An upper bound on the steps until `exec` returns. */
  function Measure<I>(g: Group<I>): int {
    T.Budget(T.LoadOf(g))
  }

  /** One access of a spawner or waker, if one is at that point. */
  function After<I>(g: Group<I>, a: EnvAction<I>): Group<I> {
    match EnvStep(g, a)
    case Some(n) => n
    case None => g
  }

  /** What preemption leaves alone: input queues only grow, nothing is taken, completed or polled. */
  ghost predicate Undisturbed<I>(inputs: seq<seq<I>>, h: History<I>, inputs': seq<seq<I>>, h': History<I>) {
    && T.Grown(inputs, inputs') && h'.taken == h.taken && h'.completed == h.completed && h'.seen == h.seen
    && |h'.events| == |h.events| && forall i :: 0 <= i < |h.events| ==> h.events[i] <= h'.events[i]
  }

  /** `pending` flags are only set. */
  ghost predicate PendingKept<I>(s: seq<ExecSlot<I>>, t: seq<ExecSlot<I>>) {
    |s| == |t| && forall i :: 0 <= i < |s| && s[i].pending ==> t[i].pending
  }

  lemma EnvUndisturbed<I>(g: Group<I>, a: EnvAction<I>)
    requires AsyncInvariant.Shape(g)
    ensures Undisturbed(g.q.inputs, g.h, After(g, a).q.inputs, After(g, a).h)
    ensures PendingKept(g.slots, After(g, a).slots)
  {
  }

  /** The number of executions of the dispatcher that have begun. */
  ghost function Entries<I>(acts: seq<Action<I>>): nat {
    if acts == [] then 0 else Entries(acts[..|acts| - 1]) + if acts[|acts| - 1].Enter? then 1 else 0
  }

  lemma EntriesPush<I>(acts: seq<Action<I>>, a: Action<I>)
    ensures Entries(acts + [a]) == Entries(acts) + if a.Enter? then 1 else 0
  {
    assert (acts + [a])[..|acts|] == acts;
  }

  class Runtime<I(0)> {
    const cfg: Config
    const slots: seq<Slot<I>>
    var inputs: seq<seq<I>>
    var ready: seq<Task>
    var overflow: seq<Task>
    var deferred: seq<Task>
    var next: nat
    var e: Signals
    // the per-task histories, the point of the code that `exec` has reached, and all steps so far
    ghost var h: History<I>
    ghost var d: Dispatcher<I>
    ghost var trace: seq<Action<I>>
    ghost var entries: nat

    ghost function Slots(): seq<ExecSlot<I>>
      reads slots
    {
      seq(|slots|, i requires 0 <= i < |slots| reads slots => slots[i].Value())
    }

    ghost function View(): Group<I>
      reads this, slots
    {
      Group(cfg, Queues(inputs, ready, overflow, deferred, next), Slots(), d, e, h)
    }

    ghost predicate Valid()
      reads this, slots
    {
      && (forall i, j :: 0 <= i < j < |slots| ==> slots[i] != slots[j])
      && T.Reachable(cfg, trace, View()) && entries == Entries(trace)
    }

    /** The statics and the execution slots of the group. */
    constructor (cfg: Config)
      ensures Valid() && this.cfg == cfg && View() == Start(cfg) && fresh(slots)
    {
      var n := |cfg.caps|;
      var cells: seq<Slot<I>> := [];
      for i := 0 to n
        invariant |cells| == i && fresh(cells)
        invariant forall k :: 0 <= k < i ==> cells[k].Value() == ExecSlot(Uninit, false, false)
        invariant forall k, l :: 0 <= k < l < i ==> cells[k] != cells[l]
      {
        var cell := new Slot<I>();
        cells := cells + [cell];
      }
      this.cfg, slots := cfg, cells;
      inputs, ready, overflow, deferred, next := seq(n, _ => []), [], [], [], 0;
      e := Signals(false, Outside, false, 0);
      h := History(seq(n, _ => []), seq(n, _ => []), seq(n, _ => []), seq(n, _ => 0), seq(n, _ => 0), false);
      d := Dispatcher(Idle, false, false);
      trace, entries := [], 0;
      new;
      assert Slots() == Start<I>(cfg).slots;
      assert View() == Start(cfg);
    }

    /** The fields have taken the step `a` from the state `g`. */
    ghost method Commit(g: Group<I>, a: Action<I>)
      requires forall i, j :: 0 <= i < j < |slots| ==> slots[i] != slots[j]
      requires T.Reachable(cfg, trace, g) && Step(g, a) == Some(View())
      requires entries == Entries(trace) + if a.Enter? then 1 else 0
      modifies `trace
      ensures Valid() && trace == old(trace) + [a]
      ensures a.Env? ==> Measure(View()) == Measure(g)
      ensures a.Advance? ==> Measure(View()) < Measure(g)
      ensures 0 <= Measure(View())
    {
      StepReaches(cfg, trace, g, a);
      EntriesPush(trace, a);
      trace := trace + [a];
    }

    /** `ready_consumer.dequeue()`. */
    method DequeueReady() returns (task: Option<Task>)
      requires Valid() && d.pc.Draining?
      modifies `ready, `d, `trace
      ensures Valid() && 0 <= Measure(View()) < old(Measure(View()))
      ensures trace == old(trace) + [Advance(false)]
      ensures task.None? ==> ready == old(ready) == []
      ensures task.Some? ==> old(ready) == [task.value] + ready
      ensures d == old(d).(pc := if task.Some? then Installing(task.value) else Polling(0))
    {
      ghost var g := View();
      if ready == [] {
        d := d.(pc := Polling(0));
        task := None;
      } else {
        task := Some(ready[0]);
        d := d.(pc := Installing(ready[0]));
        ready := ready[1..];
      }
      Commit(g, Advance(false));
    }

    /** `exec.try_allocate()`. */
    method TryAllocate(t: Task) returns (ok: bool)
      requires Valid() && d.pc == Installing(t)
      modifies `d, `trace, (set s | s in slots)`running
      ensures Valid() && 0 <= Measure(View()) < old(Measure(View()))
      ensures trace == old(trace) + [Advance(false)]
      ensures t < |slots| && ok == !old(slots[t].running)
      ensures d == old(d).(pc := if ok then Allocated(t) else Deferring(t))
    {
      ghost var g := View();
      T.ExecIsNeverStuck(cfg, trace, g, false);
      ok := slots[t].TryAllocate();
      assert Slots() == if ok then g.slots[t := g.slots[t].(running := true)] else g.slots;
      d := d.(pc := if ok then Allocated(t) else Deferring(t));
      Commit(g, Advance(false));
    }

    /** `input_consumer.dequeue_unchecked()`. */
    method DequeueInput(t: Task) returns (input: I)
      requires Valid() && d.pc == Allocated(t)
      modifies `inputs, `h, `d, `trace
      ensures Valid() && 0 <= Measure(View()) < old(Measure(View()))
      ensures trace == old(trace) + [Advance(false)]
      ensures t < |old(inputs)| && old(inputs)[t] != [] && input == old(inputs)[t][0]
      ensures t < |old(h).taken| && h == old(h).(taken := old(h).taken[t := old(h).taken[t] + [input]])
      ensures d == old(d).(pc := Dequeued(t, input))
    {
      ghost var g := View();
      T.ExecIsNeverStuck(cfg, trace, g, false);
      input := inputs[t][0];
      inputs := inputs[t := inputs[t][1..]];
      h := h.(taken := h.taken[t := h.taken[t] + [input]]);
      d := d.(pc := Dequeued(t, input));
      Commit(g, Advance(false));
    }

    /** The write of the future in `ExecSlot::spawn`. */
    method WriteFuture(t: Task, input: I)
      requires Valid() && d.pc == Dequeued(t, input)
      modifies `d, `trace, (set s | s in slots)`future
      ensures Valid() && 0 <= Measure(View()) < old(Measure(View()))
      ensures trace == old(trace) + [Advance(false)]
      ensures d == old(d).(pc := Written(t))
    {
      ghost var g := View();
      T.ExecIsNeverStuck(cfg, trace, g, false);
      slots[t].future := Live(input);
      d := d.(pc := Written(t));
      assert Slots() == g.slots[t := g.slots[t].(future := Live(input))];
      assert View() == g.(slots := Slots(), d := d);
      Commit(g, Advance(false));
    }

    /** The `set_pending` of `ExecSlot::spawn`. */
    method FinishSpawn(t: Task)
      requires Valid() && d.pc == Written(t)
      modifies `h, `d, `trace, (set s | s in slots)`pending
      ensures Valid() && 0 <= Measure(View()) < old(Measure(View()))
      ensures trace == old(trace) + [Advance(false)]
      ensures h == old(h).(events := h.events)
      ensures d == Dispatcher(if old(d).phaseB then Reinstalling else Draining, old(d).phaseB,
                              old(d).installed || old(d).phaseB)
    {
      ghost var g := View();
      T.ExecIsNeverStuck(cfg, trace, g, false);
      slots[t].pending := true;
      h := h.(events := h.events[t := h.events[t] + 1]);
      d := Dispatcher(if d.phaseB then Reinstalling else Draining, d.phaseB, d.installed || d.phaseB);
      assert Slots() == g.slots[t := g.slots[t].(pending := true)];
      assert View() == g.(slots := Slots(), h := h, d := d);
      Commit(g, Advance(false));
    }

    /** `ovf_producer.enqueue_unchecked(task)`. */
    method EnqueueOverflow(t: Task)
      requires Valid() && d.pc == Deferring(t)
      modifies `overflow, `d, `trace
      ensures Valid() && 0 <= Measure(View()) < old(Measure(View()))
      ensures trace == old(trace) + [Advance(false)]
      ensures overflow == old(overflow) + [t]
      ensures d == old(d).(pc := if d.phaseB then Reinstalling else Draining)
    {
      ghost var g := View();
      overflow := overflow + [t];
      d := d.(pc := if d.phaseB then Reinstalling else Draining);
      Commit(g, Advance(false));
    }

    // ----- What can preempt the dispatcher

    lemma Lengths()
      requires Valid()
      ensures |slots| == |inputs| == |cfg.caps| == |h.accepted| == |h.taken| == |h.events| == |h.seen|
    {
      T.ReachableInv(cfg, trace, View());
    }

    /** `inputs_producer.enqueue(input)` of `spawn`, inside its critical section. */
    method QueueInput(t: Task, input: I) returns (refused: Option<I>)
      requires Valid() && e.spawner.Outside? && t < |inputs|
      modifies `inputs, `e, `h, `trace
      ensures Valid() && Measure(View()) == old(Measure(View())) && old(trace) <= trace
      ensures View() == After(old(View()), Spawn(t, input))
      ensures t < |cfg.caps| && t < |old(h).accepted|
      ensures refused == if e.initialized && |old(inputs)[t]| < cfg.caps[t] then None else Some(input)
      ensures inputs == if refused.None? then old(inputs)[t := old(inputs)[t] + [input]] else old(inputs)
      ensures h == if refused.None? then old(h).(accepted := old(h).accepted[t := old(h).accepted[t] + [input]])
                   else old(h)
      ensures e == if refused.None? then old(e).(spawner := InputQueued(t)) else old(e)
    {
      ghost var g := View();
      Lengths();
      refused := Some(input);
      if e.initialized && |inputs[t]| < cfg.caps[t] {
        inputs := inputs[t := inputs[t] + [input]];
        h := h.(accepted := h.accepted[t := h.accepted[t] + [input]]);
        e := e.(spawner := InputQueued(t));
        refused := None;
        Commit(g, Env(Spawn(t, input)));
      }
    }

    /** `ready_producer.enqueue_unchecked(token)` of `spawn`. */
    method QueueToken()
      requires Valid()
      modifies `ready, `e, `trace
      ensures Valid() && Measure(View()) == old(Measure(View())) && old(trace) <= trace
      ensures View() == After(old(View()), PushToken)
      ensures old(e).spawner.InputQueued? ==>
                ready == old(ready) + [old(e).spawner.t] && e == old(e).(spawner := TokenQueued)
    {
      ghost var g := View();
      if e.spawner.InputQueued? {
        ready := ready + [e.spawner.t];
        e := e.(spawner := TokenQueued);
        Commit(g, Env(PushToken));
      }
    }

    /** `exec.set_pending()` of a wake function. */
    method SetPending(t: Task)
      requires Valid()
      modifies `e, `h, `trace, (set s | s in slots)`pending
      ensures Valid() && Measure(View()) == old(Measure(View())) && old(trace) <= trace
      ensures View() == After(old(View()), AsyncDispatch.SetPending(t))
      ensures t < |slots| ==>
                && t < |old(h).events| && slots[t].pending && h == old(h).(events := h.events)
                && h.events == old(h).events[t := old(h).events[t] + 1] && e == old(e).(waking := old(e).waking + 1)
      ensures forall k :: 0 <= k < |slots| && k != t ==> slots[k].pending == old(slots[k].pending)
    {
      ghost var g := View();
      Lengths();
      if t < |slots| {
        slots[t].pending := true;
        h := h.(events := h.events[t := h.events[t] + 1]);
        e := e.(waking := e.waking + 1);
        assert Slots() == g.slots[t := g.slots[t].(pending := true)];
        assert View() == g.(slots := Slots(), e := e, h := h);
        assert EnvStep(g, AsyncDispatch.SetPending(t)) == Some(View());
        Commit(g, Env(AsyncDispatch.SetPending(t)));
      }
    }

    /** The pend of `spawn`. */
    method PendSpawned()
      requires Valid()
      modifies `e, `h, `trace
      ensures Valid() && Measure(View()) == old(Measure(View())) && old(trace) <= trace
      ensures View() == After(old(View()), Pend)
      ensures old(e).spawner.TokenQueued? ==> e == old(e).(irq := !cfg.idle, spawner := Outside)
    {
      ghost var g := View();
      if e.spawner.TokenQueued? {
        e := e.(irq := !cfg.idle, spawner := Outside);
        h := h.(lostPend := false);
        Commit(g, Env(Pend));
      }
    }

    /** ... which can fail if the dispatcher is on another core. */
    method PendFailed()
      requires Valid()
      modifies `e, `h, `trace
      ensures Valid() && Measure(View()) == old(Measure(View())) && old(trace) <= trace
      ensures View() == After(old(View()), PendFails)
      ensures old(e).spawner.TokenQueued? ==> e == old(e).(spawner := Outside)
    {
      ghost var g := View();
      if e.spawner.TokenQueued? {
        ghost var stranded := ready != [] && !StillDraining(g) && !cfg.idle && !e.irq;
        e := e.(spawner := Outside);
        h := h.(lostPend := h.lostPend || stranded);
        Commit(g, Env(PendFails));
      }
    }

    /** The pend of a wake function. */
    method PendWoken()
      requires Valid()
      modifies `e, `h, `trace
      ensures Valid() && Measure(View()) == old(Measure(View())) && old(trace) <= trace
      ensures View() == After(old(View()), WakePend)
      ensures old(e).waking > 0 ==> e == old(e).(waking := old(e).waking - 1, irq := !cfg.idle)
    {
      ghost var g := View();
      if e.waking > 0 {
        e := e.(waking := e.waking - 1, irq := !cfg.idle);
        h := h.(lostPend := false);
        Commit(g, Env(WakePend));
      }
    }

    /** The end of system initialisation. */
    method SetInitialized()
      requires Valid()
      modifies `e, `trace
      ensures Valid() && Measure(View()) == old(Measure(View())) && old(trace) <= trace
      ensures View() == After(old(View()), Initialize)
    {
      ghost var g := View();
      e := e.(initialized := true);
      Commit(g, Env(Initialize));
    }

    /** One access of `spawn` or of a wake function, if one is at that point. */
    method Interfere(a: EnvAction<I>)
      requires Valid()
      modifies `inputs, `ready, `e, `h, `trace, (set s | s in slots)`pending
      ensures Valid() && Measure(View()) == old(Measure(View())) && old(trace) <= trace
      ensures Undisturbed(old(inputs), old(h), inputs, h)
      ensures PendingKept(old(Slots()), Slots())
      ensures View() == After(old(View()), a)
    {
      T.ReachableInv(cfg, trace, View());
      EnvUndisturbed(View(), a);
      match a {
        case Spawn(t, input) =>
          if e.spawner.Outside? && t < |inputs| {
            var refused := QueueInput(t, input);
          }
        case PushToken => QueueToken();
        case SetPending(t) => SetPending(t);
        case Pend => PendSpawned();
        case PendFails => PendFailed();
        case WakePend => PendWoken();
        case Initialize => SetInitialized();
      }
    }

    /** Any number of them, in any order. */
    method Preempt()
      requires Valid()
      modifies `inputs, `ready, `e, `h, `trace, (set s | s in slots)`pending
      ensures Valid() && Measure(View()) == old(Measure(View())) && old(trace) <= trace
      ensures Undisturbed(old(inputs), old(h), inputs, h)
      ensures PendingKept(old(Slots()), Slots())
    {
      var n: nat :| 0 <= n;
      for i := 0 to n
        invariant Valid() && Measure(View()) == old(Measure(View())) && old(trace) <= trace
        invariant Undisturbed(old(inputs), old(h), inputs, h)
        invariant PendingKept(old(Slots()), Slots())
      {
        var a: EnvAction<I> := *;
        Interfere(a);
      }
    }

    // ----- The dispatcher

    /** The interrupt is taken, or the idle loop starts over. */
    method Enter()
      requires Valid() && d.pc.Idle? && (e.irq || cfg.idle)
      modifies `e, `d, `trace, `entries
      ensures Valid() && 0 <= Measure(View())
      ensures trace == old(trace) + [Action.Enter]
      ensures d.pc.Draining? && !d.phaseB && entries == old(entries) + 1 && e == old(e).(irq := false)
    {
      ghost var g := View();
      entries := entries + 1;
      e := e.(irq := false);
      d := d.(pc := Draining, phaseB := false);
      Commit(g, Action.Enter);
    }

    /** The part of the install function after `try_allocate` has succeeded: the oldest input is taken. */
    method Install(t: Task)
      requires Valid() && d.pc == Allocated(t)
      modifies `inputs, `ready, `e, `h, `d, `trace, slots
      ensures Valid() && 0 <= Measure(View()) < old(Measure(View())) && old(trace) <= trace
      ensures t < |old(inputs)| && old(inputs)[t] != [] && t < |old(h).taken|
      ensures h.taken == old(h).taken[t := old(h).taken[t] + [old(inputs)[t][0]]] && h.completed == old(h).completed
      ensures d == Dispatcher(if old(d).phaseB then Reinstalling else Draining, old(d).phaseB,
                              old(d).installed || old(d).phaseB)
    {
      var input := DequeueInput(t);
      assert old(trace) <= trace;
      SpawnFuture(t, input);
    }

    /** `ExecSlot::spawn`. */
    method SpawnFuture(t: Task, input: I)
      requires Valid() && d.pc == Dequeued(t, input)
      modifies `inputs, `ready, `e, `h, `d, `trace, slots
      ensures Valid() && 0 <= Measure(View()) < old(Measure(View())) && old(trace) <= trace
      ensures h.taken == old(h).taken && h.completed == old(h).completed
      ensures d == Dispatcher(if old(d).phaseB then Reinstalling else Draining, old(d).phaseB,
                              old(d).installed || old(d).phaseB)
    {
      Preempt();
      assert old(trace) <= trace;
      WriteFuture(t, input);
      assert old(trace) <= trace;
      Preempt();
      assert old(trace) <= trace;
      FinishSpawn(t);
    }

    /** The input of a token in hand is there. */
    lemma HandHasInput(t: Task)
      requires Valid() && d.pc == Installing(t)
      ensures t < |inputs| && inputs[t] != [] && t < |h.taken|
    {
      T.ReachableInv(cfg, trace, View());
      T.HandHasInput(View().q, t, AsyncInvariant.Half(e.spawner), cfg.caps);
    }

    /** The emitted install function: installs the oldest input of the task if the task is not running (true), and
        does nothing if it is (false). */
    method TryInstall(t: Task) returns (ok: bool)
      requires Valid() && d.pc == Installing(t)
      modifies `inputs, `ready, `e, `h, `d, `trace, slots
      ensures Valid() && 0 <= Measure(View()) < old(Measure(View())) && old(trace) <= trace
      ensures t < |slots| && ok == !old(slots[t].running)
      ensures t < |old(inputs)| && old(inputs)[t] != [] && t < |old(h).taken| && h.completed == old(h).completed
      ensures h.taken ==
              if ok then old(h).taken[t := old(h).taken[t] + [old(inputs)[t][0]]] else old(h).taken
      ensures d.phaseB == old(d.phaseB) && d.installed == (old(d.installed) || (ok && d.phaseB))
      ensures d.pc == if !ok then Deferring(t) else if d.phaseB then Reinstalling else Draining
    {
      HandHasInput(t);
      ok := TryAllocate(t);
      assert old(trace) <= trace;
      Preempt();
      assert old(trace) <= trace;
      if ok {
        Install(t);
      }
    }

    /** The body of both install loops: what cannot be installed goes to the overflow queue. */
    method InstallOrDefer(t: Task) returns (ok: bool)
      requires Valid() && d.pc == Installing(t)
      modifies `inputs, `ready, `overflow, `e, `h, `d, `trace, slots
      ensures Valid() && 0 <= Measure(View()) < old(Measure(View())) && old(trace) <= trace
      ensures t < |slots| && ok == !old(slots[t].running)
      ensures overflow == if ok then old(overflow) else old(overflow) + [t]
      ensures h.completed == old(h).completed && (!ok ==> h.taken == old(h).taken)
      ensures d.phaseB == old(d.phaseB) && d.installed == (old(d.installed) || (ok && d.phaseB))
      ensures d.pc == if d.phaseB then Reinstalling else Draining
    {
      ok := TryInstall(t);
      assert old(trace) <= trace;
      if !ok {
        Defer(t);
      }
    }

    method Defer(t: Task)
      requires Valid() && d.pc == Deferring(t)
      modifies `inputs, `ready, `overflow, `e, `h, `d, `trace, (set s | s in slots)`pending
      ensures Valid() && 0 <= Measure(View()) < old(Measure(View())) && old(trace) <= trace
      ensures overflow == old(overflow) + [t] && h.taken == old(h).taken && h.completed == old(h).completed
      ensures d == old(d).(pc := if d.phaseB then Reinstalling else Draining)
    {
      Preempt();
      EnqueueOverflow(t);
    }

    /** `is_running()`. */
    method IsRunning(k: nat) returns (r: bool)
      requires Valid() && d.pc == Polling(k) && k < |slots|
      modifies `d, `trace
      ensures Valid() && trace == old(trace) + [Advance(false)]
      ensures r == slots[k].running && d == old(d).(pc := if r then SawRunning(k) else Polling(k + 1))
    {
      ghost var g := View();
      r := slots[k].running;
      d := d.(pc := if r then SawRunning(k) else Polling(k + 1));
      Commit(g, Advance(false));
    }

    /** `check_and_clear_pending()`. */
    method ClearPending(k: nat) returns (r: bool)
      requires Valid() && d.pc == SawRunning(k)
      modifies `d, `trace, (set s | s in slots)`pending
      ensures Valid() && trace == old(trace) + [Advance(false)]
      ensures k < |slots| && r == old(slots[k].pending)
      ensures d == old(d).(pc := if r then InFuture(k) else Polling(k + 1))
    {
      ghost var g := View();
      T.ExecIsNeverStuck(cfg, trace, g, false);
      r := slots[k].CheckAndClearPending();
      d := d.(pc := if r then InFuture(k) else Polling(k + 1));
      assert Slots() == if r then g.slots[k := g.slots[k].(pending := false)] else g.slots;
      Commit(g, Advance(false));
    }

    /** `future.poll(&mut cx)`, with whatever result: it sees everything that has happened. */
    method PollFuture(k: nat) returns (ready: bool)
      requires Valid() && d.pc == InFuture(k)
      modifies `h, `d, `trace
      ensures Valid() && trace == old(trace) + [Advance(ready)]
      ensures k < |old(h).seen| && k < |old(h).events|
      ensures h == old(h).(seen := old(h).seen[k := old(h).events[k]])
      ensures d == old(d).(pc := if ready then Completing(k) else Polling(k + 1))
    {
      ghost var g := View();
      ready := *;
      T.ExecIsNeverStuck(cfg, trace, g, ready);
      h := h.(seen := h.seen[k := h.events[k]]);
      d := d.(pc := if ready then Completing(k) else Polling(k + 1));
      Commit(g, Advance(ready));
    }

    /** `drop_in_place`. */
    method DropFuture(k: nat)
      requires Valid() && d.pc == Completing(k)
      modifies `h, `d, `trace, (set s | s in slots)`future
      ensures Valid() && trace == old(trace) + [Advance(false)]
      ensures k < |slots| && old(slots[k].future).Live? && k < |old(h).completed|
      ensures h == old(h).(completed :=
                             old(h).completed[k := old(h).completed[k] + [old(slots[k].future).input]])
      ensures d == old(d).(pc := DroppedFuture(k))
    {
      ghost var g := View();
      T.ExecIsNeverStuck(cfg, trace, g, false);
      h := h.(completed := h.completed[k := h.completed[k] + [slots[k].future.input]]);
      slots[k].future := Uninit;
      d := d.(pc := DroppedFuture(k));
      assert Slots() == g.slots[k := g.slots[k].(future := Uninit)];
      Commit(g, Advance(false));
    }

    /** `running.store(false)`. */
    method Release(k: nat)
      requires Valid() && d.pc == DroppedFuture(k)
      modifies `d, `trace, (set s | s in slots)`running
      ensures Valid() && trace == old(trace) + [Advance(false)]
      ensures k < |slots| && !slots[k].running && d == old(d).(pc := Polling(k + 1))
    {
      ghost var g := View();
      T.ExecIsNeverStuck(cfg, trace, g, false);
      slots[k].running := false;
      d := d.(pc := Polling(k + 1));
      assert Slots() == g.slots[k := g.slots[k].(running := false)];
      Commit(g, Advance(false));
    }

    /** The arm for `Poll::Ready`. */
    method Complete(k: nat)
      requires Valid() && d.pc == Completing(k)
      modifies `inputs, `ready, `e, `h, `d, `trace, slots
      ensures Valid() && old(trace) <= trace && d == old(d).(pc := Polling(k + 1))
      ensures k < |slots| && !slots[k].running && old(slots[k].future).Live? && k < |old(h).completed|
      ensures h.taken == old(h).taken && h.seen == old(h).seen
      ensures h.completed == old(h).completed[k := old(h).completed[k] + [old(slots[k].future).input]]
    {
      DropFuture(k);
      Preempt();
      assert old(trace) <= trace;
      Release(k);
    }

    /** The `match future.poll(&mut cx)`: true if the instance goes on. */
    method PollInstance(k: nat) returns (r: bool)
      requires Valid() && d.pc == InFuture(k) && k < |slots| && slots[k].running
      modifies `inputs, `ready, `e, `h, `d, `trace, slots
      ensures Valid() && old(trace) <= trace && d == old(d).(pc := Polling(k + 1))
      ensures r == slots[k].running && h.taken == old(h).taken
      ensures k < |h.seen| && k < |old(h).events| && h.seen[k] == old(h).events[k]
      ensures !r ==> old(slots[k].future).Live? && k < |old(h).completed|
      ensures h.completed == if r then old(h).completed
                             else old(h).completed[k := old(h).completed[k] + [old(slots[k].future).input]]
    {
      var ready := PollFuture(k);
      assert old(trace) <= trace;
      Preempt();
      assert old(trace) <= trace;
      if ready {
        Complete(k);
      }
      r := !ready;
    }

    /** `exec.poll(wake)` of a running instance: if `pending` is set it is polled, and sees every wake-up until then; if
        it returns ready it is completed, dropped and released. */
    method PollRunning(k: nat) returns (r: bool)
      requires Valid() && d.pc == SawRunning(k) && k < |slots| && slots[k].running
      modifies `inputs, `ready, `e, `h, `d, `trace, slots
      ensures Valid() && old(trace) <= trace && d == old(d).(pc := Polling(k + 1))
      ensures r == slots[k].running && h.taken == old(h).taken
      ensures old(slots[k].pending) ==> k < |h.seen| && k < |old(h).events| && old(h).events[k] <= h.seen[k]
      ensures !r ==> old(slots[k].future).Live? && k < |old(h).completed|
      ensures h.completed == if r then old(h).completed
                             else old(h).completed[k := old(h).completed[k] + [old(slots[k].future).input]]
    {
      var pending := ClearPending(k);
      assert old(trace) <= trace;
      r := true;
      if pending {
        r := PollWoken(k);
      } else {
        Preempt();
      }
    }

    /** ... once its flag is cleared. */
    method PollWoken(k: nat) returns (r: bool)
      requires Valid() && d.pc == InFuture(k) && k < |slots| && slots[k].running
      modifies `inputs, `ready, `e, `h, `d, `trace, slots
      ensures Valid() && old(trace) <= trace && d == old(d).(pc := Polling(k + 1))
      ensures r == slots[k].running && h.taken == old(h).taken
      ensures k < |h.seen| && k < |old(h).events| && old(h).events[k] <= h.seen[k]
      ensures !r ==> old(slots[k].future).Live? && k < |old(h).completed|
      ensures h.completed == if r then old(h).completed
                             else old(h).completed[k := old(h).completed[k] + [old(slots[k].future).input]]
    {
      Preempt();
      assert old(trace) <= trace;
      r := PollInstance(k);
    }

    /** `exec.poll(wake)`; an instance that is not running is left alone. */
    method Poll(k: nat) returns (r: bool)
      requires Valid() && d.pc == Polling(k) && k < |slots|
      modifies `inputs, `ready, `e, `h, `d, `trace, slots
      ensures Valid() && old(trace) <= trace && d == old(d).(pc := Polling(k + 1))
      ensures r == slots[k].running && (r ==> old(slots[k].running)) && h.taken == old(h).taken
      ensures old(slots[k].running && slots[k].pending) ==>
                k < |h.seen| && k < |old(h).events| && old(h).events[k] <= h.seen[k]
      ensures !old(slots[k].running) ==> h.seen == old(h).seen
      ensures old(slots[k].running) && !r ==> old(slots[k].future).Live? && k < |old(h).completed|
      ensures h.completed == if r || !old(slots[k].running) then old(h).completed
                             else old(h).completed[k := old(h).completed[k] + [old(slots[k].future).input]]
    {
      assert Slots()[k] == slots[k].Value();
      r := IsRunning(k);
      Preempt();
      assert old(trace) <= trace && Slots()[k] == slots[k].Value();
      if r {
        r := PollRunning(k);
      }
    }

    /** The declarations that begin phase B. */
    method BeginPhaseB()
      requires Valid() && d.pc == Polling(|slots|)
      modifies `deferred, `next, `d, `trace
      ensures Valid() && 0 <= Measure(View()) && d == Dispatcher(Collecting, true, false)
      ensures trace == old(trace) + [Advance(false)]
      ensures next == 0 && deferred == []
    {
      ghost var g := View();
      deferred, next := [], 0;
      d := Dispatcher(Collecting, true, false);
      Commit(g, Advance(false));
    }

    /** `ovf_consumer.dequeue()` and the store to `deferred[deferred_len]`. */
    method CollectOverflow() returns (more: bool)
      requires Valid() && d.pc.Collecting?
      modifies `overflow, `deferred, `d, `trace
      ensures Valid() && 0 <= Measure(View()) < old(Measure(View()))
      ensures trace == old(trace) + [Advance(false)]
      ensures more == (old(overflow) != []) && deferred + overflow == old(deferred) + old(overflow)
      ensures !more ==> overflow == []
      ensures d == old(d).(pc := if more then Collecting else Reinstalling)
    {
      ghost var g := View();
      more := overflow != [];
      if more {
        deferred := deferred + [overflow[0]];
        overflow := overflow[1..];
      } else {
        d := d.(pc := Reinstalling);
      }
      Commit(g, Advance(false));
    }

    /** `deferred[i]` and the step of the loop counter. */
    method TakeDeferred() returns (t: Task)
      requires Valid() && d.pc.Reinstalling? && next < |deferred|
      modifies `next, `d, `trace
      ensures Valid() && 0 <= Measure(View()) < old(Measure(View()))
      ensures trace == old(trace) + [Advance(false)]
      ensures next == old(next) + 1 && t == deferred[old(next)] && d == old(d).(pc := Installing(t))
    {
      ghost var g := View();
      t := deferred[next];
      next := next + 1;
      d := d.(pc := Installing(t));
      Commit(g, Advance(false));
    }

    /** `if installed { pend }`, which the idle executor does not have. */
    method Finish(installed: bool)
      requires Valid() && d.pc.Reinstalling? && next >= |deferred| && installed == d.installed
      modifies `inputs, `ready, `e, `h, `d, `trace, (set s | s in slots)`pending
      ensures Valid() && d.pc.Idle? && old(trace) <= trace && h.taken == old(h).taken
      ensures installed && !cfg.idle ==> e.irq
    {
      if installed && !cfg.idle {
        PendAgain();
      } else {
        ghost var g := View();
        d := d.(pc := Idle);
        Commit(g, Advance(false));
      }
    }

    method PendAgain()
      requires Valid() && d.pc.Reinstalling? && next >= |deferred| && d.installed && !cfg.idle
      modifies `inputs, `ready, `e, `h, `d, `trace, (set s | s in slots)`pending
      ensures Valid() && d.pc.Idle? && old(trace) <= trace && h.taken == old(h).taken && e.irq
    {
      ghost var g := View();
      d := d.(pc := Repending);
      Commit(g, Advance(false));
      Preempt();
      assert old(trace) <= trace;
      PendSelf();
    }

    /** `wake_pend(dispatcher)` at the end of `exec`. */
    method PendSelf()
      requires Valid() && d.pc.Repending?
      modifies `e, `h, `d, `trace
      ensures Valid() && d.pc.Idle? && trace == old(trace) + [Advance(false)]
      ensures e.irq && h == old(h).(lostPend := false)
    {
      ghost var g := View();
      e := e.(irq := true);
      h := h.(lostPend := false);
      d := d.(pc := Idle);
      Commit(g, Advance(false));
    }

    /** Phase A drains the ready queue, although spawns keep arriving: at its end the queue is empty. */
    method PhaseA()
      requires Valid() && d.pc.Draining? && !d.phaseB && 0 <= Measure(View())
      modifies `inputs, `ready, `overflow, `e, `h, `d, `trace, slots
      ensures Valid() && d.pc == Polling(0) && !d.phaseB && old(trace) <= trace
      ensures ready == [] && h.completed == old(h).completed
    {
      var task := DequeueReady();
      while task.Some?
        invariant Valid() && 0 <= Measure(View()) && !d.phaseB && old(trace) <= trace
        invariant d.pc == if task.Some? then Installing(task.value) else Polling(0)
        invariant (task.None? ==> ready == []) && h.completed == old(h).completed
        decreases Measure(View())
      {
        task := DrainOne(task.value);
      }
    }

    /** A round of the loop of phase A. */
    method DrainOne(t: Task) returns (task: Option<Task>)
      requires Valid() && d.pc == Installing(t) && !d.phaseB && 0 <= Measure(View())
      modifies `inputs, `ready, `overflow, `e, `h, `d, `trace, slots
      ensures Valid() && 0 <= Measure(View()) < old(Measure(View())) && !d.phaseB && old(trace) <= trace
      ensures d.pc == if task.Some? then Installing(task.value) else Polling(0)
      ensures (task.None? ==> ready == []) && h.completed == old(h).completed
    {
      Preempt();
      assert old(trace) <= trace;
      var ok := InstallOrDefer(t);
      assert old(trace) <= trace;
      task := NextToken();
    }

    method NextToken() returns (task: Option<Task>)
      requires Valid() && d.pc.Draining? && !d.phaseB && 0 <= Measure(View())
      modifies `inputs, `ready, `e, `h, `d, `trace, (set s | s in slots)`pending
      ensures Valid() && 0 <= Measure(View()) < old(Measure(View())) && !d.phaseB && old(trace) <= trace
      ensures d.pc == if task.Some? then Installing(task.value) else Polling(0)
      ensures (task.None? ==> ready == []) && h.completed == old(h).completed
    {
      Preempt();
      assert old(trace) <= trace;
      task := DequeueReady();
    }

    /** The first loop of phase B: the overflow queue moves to `deferred`. */
    method CollectAll()
      requires Valid() && d == Dispatcher(Collecting, true, false) && 0 <= Measure(View())
      modifies `inputs, `ready, `overflow, `deferred, `e, `h, `d, `trace, (set s | s in slots)`pending
      ensures Valid() && d == Dispatcher(Reinstalling, true, false) && 0 <= Measure(View()) && old(trace) <= trace
      ensures overflow == [] && deferred == old(deferred) + old(overflow) && h.taken == old(h).taken
    {
      var more := CollectOverflow();
      while more
        invariant Valid() && 0 <= Measure(View()) && old(trace) <= trace && h.taken == old(h).taken
        invariant d == Dispatcher(if more then Collecting else Reinstalling, true, false)
        invariant deferred + overflow == old(deferred) + old(overflow) && (!more ==> overflow == [])
        decreases Measure(View())
      {
        Preempt();
        assert old(trace) <= trace;
        more := CollectOverflow();
      }
    }

    /** Phase B installs deferred spawns into the slots that polling has freed; if it has taken any input, the interrupt
        is pended at its end. */
    method PhaseB()
      requires Valid() && d == Dispatcher(Collecting, true, false) && 0 <= Measure(View())
      modifies `inputs, `ready, `overflow, `deferred, `next, `e, `h, `d, `trace, slots
      ensures Valid() && d.pc.Idle? && old(trace) <= trace
      ensures h.taken != old(h).taken && !cfg.idle ==> e.irq
    {
      CollectAll();
      assert old(trace) <= trace;
      var installed := Reinstall();
      assert old(trace) <= trace;
      Finish(installed);
    }

    /** The second loop of phase B. */
    method Reinstall() returns (installed: bool)
      requires Valid() && d == Dispatcher(Reinstalling, true, false) && 0 <= Measure(View())
      modifies `inputs, `ready, `overflow, `next, `e, `h, `d, `trace, slots
      ensures Valid() && d == Dispatcher(Reinstalling, true, installed) && next >= |deferred| && old(trace) <= trace
      ensures !installed ==> h.taken == old(h).taken
    {
      installed := false;
      while next < |deferred|
        invariant Valid() && 0 <= Measure(View()) && old(trace) <= trace
        invariant d == Dispatcher(Reinstalling, true, installed)
        invariant !installed ==> h.taken == old(h).taken
        decreases Measure(View())
      {
        Preempt();
        assert old(trace) <= trace;
        var t := TakeDeferred();
        assert old(trace) <= trace;
        Preempt();
        assert old(trace) <= trace;
        var ok := InstallOrDefer(t);
        assert old(trace) <= trace;
        installed := installed || ok;
      }
    }

    /** Poll the running futures. */
    method PollAll()
      requires Valid() && d.pc == Polling(0) && !d.phaseB
      modifies `inputs, `ready, `e, `h, `d, `trace, slots
      ensures Valid() && d.pc == Polling(|slots|) && old(trace) <= trace && h.taken == old(h).taken
    {
      for k := 0 to |slots|
        invariant Valid() && d.pc == Polling(k) && !d.phaseB && old(trace) <= trace && h.taken == old(h).taken
      {
        Preempt();
        assert old(trace) <= trace;
        var running := Poll(k);
      }
      Preempt();
      assert old(trace) <= trace;
    }

    /** The body of `exec`, preempted anywhere. */
    method Phases()
      requires Valid() && d.pc.Draining? && !d.phaseB && 0 <= Measure(View())
      modifies `inputs, `ready, `overflow, `deferred, `next, `e, `h, `d, `trace, slots
      ensures Valid() && d.pc.Idle? && old(trace) <= trace
    {
      PhaseA();
      PollAll();
      assert old(trace) <= trace;
      BeginPhaseB();
      assert old(trace) <= trace;
      PhaseB();
    }

    /** One whole execution of the dispatcher, preempted anywhere.  It takes steps of the machine, one `Enter` among
        them, terminates, and loses nothing that was accepted.  It leaves no token on the overflow queue whose task is
        not running, and no token on the ready queue and no task that was installed or woken without being polled
        since unless the interrupt is pended (or the idle loop serves the group, or a spawner or waker is about to
        pend, or a cross-core pend failed). */
    method Exec()
      requires Valid() && d.pc.Idle? && (e.irq || cfg.idle)
      modifies this, slots
      ensures Valid() && entries == old(entries) + 1 && d.pc.Idle? && NothingStuck()
      ensures old(trace) + [Action.Enter] <= trace && T.HistoryGrown(old(h), h)
    {
      ghost var g := View();
      Enter();
      Preempt();
      assert old(trace) + [Action.Enter] <= trace;
      Phases();
      AfterExec();
      T.LaterHistory(cfg, old(trace), g, trace, View());
    }

    ghost predicate NothingStuck()
      reads this, slots
    {
      && (forall t :: t in overflow ==> t < |slots| && slots[t].running)
      && (cfg.idle || ready == [] || e.irq || e.spawner.TokenQueued? || h.lostPend)
      && (!cfg.idle && e.spawner.Outside? ==> (h.lostPend <==> ready != [] && !e.irq))
      && |h.seen| == |h.events| == |slots|
      && (forall t :: 0 <= t < |slots| && slots[t].running && h.seen[t] != h.events[t] ==>
                cfg.idle || e.irq || e.waking > 0)
    }

    lemma AfterExec()
      requires Valid() && d.pc.Idle?
      ensures NothingStuck()
    {
      T.NothingIsStuck(cfg, trace, View());
      assert forall t :: 0 <= t < |slots| ==> View().slots[t] == slots[t].Value();
    }
  }
}
