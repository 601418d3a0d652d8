/** One priority group of software tasks: the code emitted by the software pass for `spawn`/`cross_spawn` and for the
    dispatcher, one step per access to a queue.  The ready queue and the per-task input queues are proved to be one
    FIFO of (task, input) pairs. */
module SwDispatch {
  import opened Wrappers

  type Task = nat
  type Pair<I> = (Task, I)

  /** Where the dispatcher stands: outside `exec`, at `ready_consumer.dequeue()`, in the branch of task `t` before
      `dequeue_unchecked`, inside the user's `exec`. */
  datatype Pc<I> = Idle | Fetching | Matched(t: Task) | Executing(t: Task, input: I)

  /** Where the one spawner that is inside the critical section stands.  The dispatcher can run on another core, so
      the critical section does not stop it. */
  datatype Spawner = Outside | InputQueued(t: Task) | TokenQueued

  /** `accepted` are the spawns whose input was queued, in that order; `executed` the calls of `exec` that returned;
      `lostPend` says that a cross-core pend has failed while the dispatcher was outside `exec` and not pended, and that
      nothing has pended it since. */
  datatype Group<I> = Group(
    caps: seq<nat>,
    inputs: seq<seq<I>>,
    ready: seq<Task>,
    pc: Pc<I>,
    spawner: Spawner,
    initialized: bool,
    irq: bool,
    lostPend: bool,
    accepted: seq<Pair<I>>,
    executed: seq<Pair<I>>)

  datatype Action<I> =
    | Initialize
    | Spawn(t: Task, input: I)
    | PushToken
    | Pend
    | PendFails
    | Enter
    | Advance

  /** The input is refused, and handed back, before initialisation and when the input queue is full. */
  predicate Accepts<I>(g: Group<I>, t: Task) {
    g.initialized && t < |g.inputs| && t < |g.caps| && |g.inputs[t]| < g.caps[t]
  }

  /** `None`: the action is not possible here, or (`Advance` inside `exec`) would read an empty queue. */
  function Step<I>(g: Group<I>, a: Action<I>): Option<Group<I>> {
    match a
    case Initialize => Some(g.(initialized := true))
    case Spawn(t, input) =>
      if !g.spawner.Outside? || t >= |g.inputs| then None
      else if Accepts(g, t) then
        Some(g.(inputs := g.inputs[t := g.inputs[t] + [input]], spawner := InputQueued(t),
                accepted := g.accepted + [(t, input)]))
      else Some(g)
    case PushToken =>
      if g.spawner.InputQueued? then Some(g.(ready := g.ready + [g.spawner.t], spawner := TokenQueued)) else None
    case Pend =>
      if g.spawner.TokenQueued? then Some(g.(irq := true, lostPend := false, spawner := Outside)) else None
    case PendFails =>
      if g.spawner.TokenQueued? then
        Some(g.(lostPend := g.lostPend || (g.pc.Idle? && !g.irq && g.ready != []), spawner := Outside))
      else None
    case Enter =>
      if g.pc.Idle? && g.irq then Some(g.(irq := false, pc := Fetching)) else None
    case Advance =>
      match g.pc {
        case Idle => None
        case Fetching =>
          if g.ready == [] then Some(g.(pc := Idle))
          else Some(g.(ready := g.ready[1..], pc := Matched(g.ready[0])))
        case Matched(t) =>
          if t < |g.inputs| && g.inputs[t] != [] then
            Some(g.(inputs := g.inputs[t := g.inputs[t][1..]], pc := Executing(t, g.inputs[t][0])))
          else None
        case Executing(t, input) => Some(g.(executed := g.executed + [(t, input)], pc := Fetching))
      }
  }

  function Run<I>(g: Group<I>, acts: seq<Action<I>>): Option<Group<I>>
    decreases |acts|
  {
    if acts == [] then Some(g)
    else
      match Step(g, acts[0])
      case Some(m) => Run(m, acts[1..])
      case None => None
  }

  function Start<I>(caps: seq<nat>): Group<I> {
    Group(caps, seq(|caps|, _ => []), [], Idle, Outside, false, false, false, [], [])
  }

  // ----- The abstract FIFO

  /** The tokens of a FIFO of pairs, and the inputs it holds for task `t`. */
  function Tokens<I>(p: seq<Pair<I>>): seq<Task> {
    seq(|p|, i requires 0 <= i < |p| => p[i].0)
  }

  function Inputs<I>(p: seq<Pair<I>>, t: Task): seq<I> {
    if p == [] then []
    else if p[0].0 == t then [p[0].1] + Inputs(p[1..], t)
    else Inputs(p[1..], t)
  }

  lemma {:induction false} InputsPush<I>(p: seq<Pair<I>>, x: Pair<I>, t: Task)
    ensures Inputs(p + [x], t) == if x.0 == t then Inputs(p, t) + [x.1] else Inputs(p, t)
  {
    var q := p + [x];
    if p == [] {
      assert q[1..] == [];
    } else {
      InputsPush(p[1..], x, t);
      assert q[0] == p[0] && q[1..] == p[1..] + [x];
      if p[0].0 == t && x.0 == t {
        assert [p[0].1] + (Inputs(p[1..], t) + [x.1]) == ([p[0].1] + Inputs(p[1..], t)) + [x.1];
      }
    }
  }

  /** The pair that is being executed, and the token that has no input in hand yet. */
  function Running<I>(pc: Pc<I>): seq<Pair<I>> {
    if pc.Executing? then [(pc.t, pc.input)] else []
  }

  function Held<I>(pc: Pc<I>): seq<Task> {
    if pc.Matched? then [pc.t] else []
  }

  function Half(spawner: Spawner): seq<Task> {
    if spawner.InputQueued? then [spawner.t] else []
  }

  /** The spawns that are accepted and have not begun to execute. */
  function Pending<I>(g: Group<I>): seq<Pair<I>>
    requires |g.executed| + |Running(g.pc)| <= |g.accepted|
  {
    g.accepted[|g.executed| + |Running(g.pc)|..]
  }

  ghost predicate Refines<I>(p: seq<Pair<I>>, tokens: seq<Task>, inputs: seq<seq<I>>) {
    && Tokens(p) == tokens
    && (forall i :: 0 <= i < |p| ==> p[i].0 < |inputs|)
    && (forall t :: 0 <= t < |inputs| ==> inputs[t] == Inputs(p, t))
  }

  lemma RefinesPush<I>(p: seq<Pair<I>>, tokens: seq<Task>, inputs: seq<seq<I>>, t: Task, input: I)
    requires Refines(p, tokens, inputs) && t < |inputs|
    ensures Refines(p + [(t, input)], tokens + [t], inputs[t := inputs[t] + [input]])
  {
    forall u | 0 <= u < |inputs| ensures inputs[t := inputs[t] + [input]][u] == Inputs(p + [(t, input)], u) {
      InputsPush(p, (t, input), u);
    }
  }

  /** The first token's input is the first one in that task's queue, and it is there. */
  lemma RefinesPop<I>(p: seq<Pair<I>>, tokens: seq<Task>, inputs: seq<seq<I>>)
    requires Refines(p, tokens, inputs) && tokens != []
    ensures p != [] && tokens[0] < |inputs| && inputs[tokens[0]] != [] && p[0] == (tokens[0], inputs[tokens[0]][0])
    ensures Refines(p[1..], tokens[1..], inputs[tokens[0] := inputs[tokens[0]][1..]])
  {
    assert |Tokens(p)| == |p|;
    assert Tokens(p)[0] == p[0].0;
    assert Tokens(p[1..]) == Tokens(p)[1..];
    assert forall i :: 0 <= i < |p[1..]| ==> p[1..][i] == p[i + 1];
  }

  // ----- The invariant and its preservation

  ghost predicate Inv<I>(g: Group<I>) {
    && |g.inputs| == |g.caps|
    && (forall t :: 0 <= t < |g.inputs| ==> |g.inputs[t]| <= g.caps[t])
    && |g.executed| + |Running(g.pc)| <= |g.accepted|
    && g.executed + Running(g.pc) == g.accepted[..|g.executed| + |Running(g.pc)|]
    && Refines(Pending(g), Held(g.pc) + g.ready + Half(g.spawner), g.inputs)
    && (g.ready != [] ==> !g.pc.Idle? || g.irq || g.spawner.TokenQueued? || g.lostPend)
    && (g.lostPend ==> g.pc.Idle? && !g.irq && g.ready != [])
  }

  lemma SpawnInv<I>(g: Group<I>, t: Task, input: I)
    requires Inv(g) && Step(g, Spawn(t, input)).Some?
    ensures Inv(Step(g, Spawn(t, input)).value)
  {
    if Accepts(g, t) {
      var m := Step(g, Spawn(t, input)).value;
      RefinesPush(Pending(g), Held(g.pc) + g.ready, g.inputs, t, input);
      assert Held(g.pc) + g.ready + Half(g.spawner) == Held(g.pc) + g.ready;
      assert m.executed + Running(m.pc) == m.accepted[..|m.executed| + |Running(m.pc)|];
      assert Pending(m) == Pending(g) + [(t, input)];
      assert Held(m.pc) + m.ready + Half(m.spawner) == Held(g.pc) + g.ready + [t];
    }
  }

  lemma PushInv<I>(g: Group<I>)
    requires Inv(g) && Step(g, PushToken).Some?
    ensures Inv(Step(g, PushToken).value)
  {
    var m := Step(g, PushToken).value;
    assert Held(m.pc) + m.ready + Half(m.spawner) == Held(g.pc) + g.ready + Half(g.spawner);
    assert Pending(m) == Pending(g);
  }

  lemma FetchInv<I>(g: Group<I>)
    requires Inv(g) && g.pc.Fetching?
    ensures Inv(Step(g, Advance).value)
  {
    var m := Step(g, Advance).value;
    assert Held(m.pc) + m.ready + Half(m.spawner) == Held(g.pc) + g.ready + Half(g.spawner);
    assert Pending(m) == Pending(g);
  }

  lemma DequeueInv<I>(g: Group<I>)
    requires Inv(g) && g.pc.Matched?
    ensures Step(g, Advance).Some? && Inv(Step(g, Advance).value)
  {
    var p, tokens := Pending(g), Held(g.pc) + g.ready + Half(g.spawner);
    RefinesPop(p, tokens, g.inputs);
    CutOne(g.accepted, |g.executed|);
    assert g.executed + [] == g.executed;
    assert tokens[0] == g.pc.t && tokens[1..] == g.ready + Half(g.spawner);
    DequeuedInv(g, Step(g, Advance).value);
  }

  lemma DequeuedInv<I>(g: Group<I>, m: Group<I>)
    requires Step(g, Advance) == Some(m) && g.pc.Matched? && |g.inputs| == |g.caps|
    requires (forall t :: 0 <= t < |g.inputs| ==> |g.inputs[t]| <= g.caps[t]) && |g.executed| < |g.accepted|
    requires g.executed == g.accepted[..|g.executed|] && (m.pc.t, m.pc.input) == g.accepted[|g.executed|]
    requires Refines(g.accepted[|g.executed| + 1..], g.ready + Half(g.spawner), m.inputs)
    requires g.lostPend ==> g.pc.Idle?
    ensures Inv(m)
  {
    assert Held(m.pc) + m.ready + Half(m.spawner) == g.ready + Half(g.spawner);
    CutOne(g.accepted, |g.executed|);
  }

  lemma CutOne<X>(s: seq<X>, n: nat)
    requires n < |s|
    ensures s[n..][0] == s[n] && s[n..][1..] == s[n + 1..] && s[..n] + [s[n]] == s[..n + 1]
  {
  }

  lemma ExecutedInv<I>(g: Group<I>)
    requires Inv(g) && g.pc.Executing?
    ensures Inv(Step(g, Advance).value)
  {
    var m := Step(g, Advance).value;
    assert m.executed == g.executed + Running(g.pc);
    assert m.executed + Running(m.pc) == m.executed;
    assert Held(m.pc) + m.ready + Half(m.spawner) == Held(g.pc) + g.ready + Half(g.spawner);
    assert Pending(m) == Pending(g);
  }

  lemma StepInv<I>(g: Group<I>, a: Action<I>)
    requires Inv(g) && Step(g, a).Some?
    ensures Inv(Step(g, a).value) && Step(g, a).value.caps == g.caps
  {
    match a
    case Spawn(t, input) => SpawnInv(g, t, input);
    case PushToken => PushInv(g);
    case Advance =>
      match g.pc {
        case Idle =>
        case Fetching => FetchInv(g);
        case Matched(_) => DequeueInv(g);
        case Executing(_, _) => ExecutedInv(g);
      }
    case _ => assert Pending(Step(g, a).value) == Pending(g);
  }

  lemma {:induction false} RunInv<I>(g: Group<I>, acts: seq<Action<I>>)
    requires Inv(g) && Run(g, acts).Some?
    ensures Inv(Run(g, acts).value) && Run(g, acts).value.caps == g.caps
    decreases |acts|
  {
    if acts != [] {
      StepInv(g, acts[0]);
      RunInv(Step(g, acts[0]).value, acts[1..]);
    }
  }

  ghost predicate Reachable<I>(caps: seq<nat>, acts: seq<Action<I>>, g: Group<I>) {
    Run(Start(caps), acts) == Some(g)
  }

  lemma StartInv<I>(caps: seq<nat>)
    ensures Inv(Start<I>(caps))
  {
    var g := Start<I>(caps);
    assert Pending(g) == [] && Tokens(Pending(g)) == [];
  }

  lemma ReachableInv<I>(caps: seq<nat>, acts: seq<Action<I>>, g: Group<I>)
    requires Reachable(caps, acts, g)
    ensures Inv(g) && g.caps == caps
  {
    StartInv<I>(caps);
    RunInv(Start(caps), acts);
  }

  // ----- What holds of every run

  /** Every accepted spawn is executed once, with its own input, in the order of the spawns of the whole group: the
      executed calls are a prefix of the accepted spawns, and the rest is being executed or queued. */
  lemma ExecutedInSpawnOrder<I>(caps: seq<nat>, acts: seq<Action<I>>, g: Group<I>)
    requires Reachable(caps, acts, g)
    ensures g.executed + Running(g.pc) <= g.accepted
    ensures Tokens(g.accepted[|g.executed| + |Running(g.pc)|..]) == Held(g.pc) + g.ready + Half(g.spawner)
  {
    ReachableInv(caps, acts, g);
  }

  /** `dequeue_unchecked` never reads an empty queue and no token names a task without a branch. */
  lemma ExecIsNeverStuck<I>(caps: seq<nat>, acts: seq<Action<I>>, g: Group<I>)
    requires Reachable(caps, acts, g) && !g.pc.Idle?
    ensures Step(g, Advance).Some?
  {
    ReachableInv(caps, acts, g);
    if g.pc.Matched? {
      var tokens := Held(g.pc) + g.ready + Half(g.spawner);
      RefinesPop(Pending(g), tokens, g.inputs);
    }
  }

  lemma OneLess<I>(p: seq<Pair<I>>, t: Task)
    requires p != []
    ensures |Inputs(p, t)| == |Inputs(p[1..], t)| + if p[0].0 == t then 1 else 0
  {
  }

  /** Pairs counted per task. */
  lemma {:induction false} CountedByTask<I>(p: seq<Pair<I>>, caps: seq<nat>)
    requires forall i :: 0 <= i < |p| ==> p[i].0 < |caps|
    requires forall t :: 0 <= t < |caps| ==> |Inputs(p, t)| <= caps[t]
    ensures |p| <= Sum(caps)
    decreases |caps|, |p|
  {
    if p != [] {
      var t := p[0].0;
      OneLess(p, t);
      var rest := caps[t := caps[t] - 1];
      forall u | 0 <= u < |rest| ensures |Inputs(p[1..], u)| <= rest[u] {
        OneLess(p, u);
      }
      CountedByTask(p[1..], rest);
      SumUpdate(caps, t, caps[t] - 1);
    }
  }

  /** The ready queue has room for Sum(caps) tokens, so `enqueue_unchecked` never meets a full queue. */
  lemma ReadyQueueFits<I>(caps: seq<nat>, acts: seq<Action<I>>, g: Group<I>)
    requires Reachable(caps, acts, g)
    ensures |g.ready| <= Sum(caps)
    ensures g.spawner.InputQueued? ==> |g.ready| < Sum(caps)
    ensures |g.accepted| - |g.executed| <= Sum(caps) + 1
  {
    ReachableInv(caps, acts, g);
    CountedByTask(Pending(g), caps);
    assert |Tokens(Pending(g))| == |Pending(g)|;
  }

  /** Outside `exec`, with nobody inside `spawn`, there are accepted spawns that were not executed and no pended
      interrupt if and only if a failed cross-core pend has stranded them. */
  lemma NothingIsStuck<I>(caps: seq<nat>, acts: seq<Action<I>>, g: Group<I>)
    requires Reachable(caps, acts, g) && g.pc.Idle? && g.spawner.Outside?
    ensures g.lostPend <==> !g.irq && g.executed != g.accepted
  {
    ReachableInv(caps, acts, g);
    IdleBacklog(g);
  }

  /** Outside `exec` and `spawn`, what is accepted and not executed has its token on the ready queue. */
  lemma IdleBacklog<I>(g: Group<I>)
    requires Inv(g) && g.pc.Idle? && !g.spawner.InputQueued?
    ensures g.executed != g.accepted <==> g.ready != []
  {
    assert |Tokens(Pending(g))| == |Pending(g)| == |g.ready|;
  }

  /** When exactly a failed pend strands the spawns that wait, its own among them or not: when it finds the dispatcher
      outside `exec` and not pended, with a token on the ready queue.  A dispatcher that is running, or pended by
      somebody else, serves them all the same. */
  lemma LostPendStrands<I>(caps: seq<nat>, acts: seq<Action<I>>, g: Group<I>)
    requires Reachable(caps, acts, g) && g.spawner.TokenQueued?
    ensures Step(g, PendFails).Some?
    ensures var n := Step(g, PendFails).value;
            (n.pc.Idle? && !n.irq && n.executed != n.accepted) <==> (g.pc.Idle? && !g.irq && g.ready != [])
  {
    ReachableInv(caps, acts, g);
    if g.pc.Idle? { IdleBacklog(g); }
  }

  /** It does happen, in every group and for each of its tasks: the first spawn after initialisation, if its pend
      fails. */
  lemma FirstSpawnStranded<I>(caps: seq<nat>, t: Task, input: I)
    requires t < |caps| && caps[t] > 0
    ensures exists acts, g :: Reachable(caps, acts, g) && g.lostPend && g.accepted == [(t, input)] && g.executed == []
  {
    var acts := [Initialize, Spawn(t, input), PushToken, PendFails];
    var g0 := Start<I>(caps);
    var g1 := Step(g0, Initialize).value;
    var g2 := Step(g1, Spawn(t, input)).value;
    var g3 := Step(g2, PushToken).value;
    var g4 := Step(g3, PendFails).value;
    assert Run(g3, acts[3..]) == Some(g4) by { assert acts[3..] == [PendFails]; }
    assert Run(g2, acts[2..]) == Some(g4) by { assert acts[2..][1..] == acts[3..]; }
    assert Run(g1, acts[1..]) == Some(g4) by { assert acts[1..][1..] == acts[2..]; }
    assert Reachable(caps, acts, g4);
  }

  /** Nothing more is executed until somebody pends the dispatcher. */
  lemma {:induction false} StrandedUntilPend<I>(g: Group<I>, acts: seq<Action<I>>)
    requires g.pc.Idle? && !g.irq && Run(g, acts).Some? && forall i :: 0 <= i < |acts| ==> !acts[i].Pend?
    ensures var n := Run(g, acts).value; n.pc.Idle? && !n.irq && n.executed == g.executed && |n.ready| >= |g.ready|
    decreases |acts|
  {
    if acts != [] {
      StrandedUntilPend(Step(g, acts[0]).value, acts[1..]);
    }
  }

  // ----- The operations

  /** `spawn` accepts the input if and only if the system is initialised and the task's input queue has room; a refused
      one changes nothing. */
  lemma SpawnAcceptsIff<I>(caps: seq<nat>, acts: seq<Action<I>>, g: Group<I>, t: Task, input: I)
    requires Reachable(caps, acts, g) && g.spawner.Outside? && t < |caps|
    ensures Step(g, Spawn(t, input)).Some? && t < |g.inputs|
    ensures var n := Step(g, Spawn(t, input)).value;
            if g.initialized && |g.inputs[t]| < caps[t] then
              n == g.(inputs := g.inputs[t := g.inputs[t] + [input]], spawner := InputQueued(t),
                      accepted := g.accepted + [(t, input)])
            else n == g
  {
    ReachableInv(caps, acts, g);
  }

  /** An accepted spawn queues its token last, and pends the dispatcher. */
  lemma SpawnGoesOn<I>(g: Group<I>)
    ensures g.spawner.InputQueued? ==>
              Step(g, PushToken) == Some(g.(ready := g.ready + [g.spawner.t], spawner := TokenQueued))
    ensures g.spawner.TokenQueued? ==>
              && Step(g, Pend) == Some(g.(irq := true, lostPend := false, spawner := Outside))
              && Step(g, PendFails).Some?
              && Step(g, PendFails).value.(lostPend := g.lostPend) == g.(spawner := Outside)
  {
  }

  /** The dispatcher from its entry, or from any point of its loop, to its end, if nobody spawns meanwhile. */
  function ExecCall<I>(g: Group<I>): Option<Group<I>>
    decreases |g.ready|, match g.pc case Idle => 0 case Fetching => 1 case Executing(_, _) => 2 case Matched(_) => 3
  {
    if g.pc.Idle? then Some(g)
    else
      match Step(g, Advance)
      case None => None
      case Some(n) => ExecCall(n)
  }

  /** It executes every spawn whose token is queued, each with its own input, in the order of the spawns, and leaves the
      ready queue empty; only a spawn whose token is still to come waits. */
  lemma {:induction false} ExecExecutesAll<I>(g: Group<I>)
    requires Inv(g)
    ensures ExecCall(g).Some?
    ensures var n := ExecCall(g).value;
            && n.pc.Idle? && (!g.pc.Idle? ==> n.ready == []) && n.accepted == g.accepted && n.irq == g.irq
            && n.spawner == g.spawner
            && (!g.pc.Idle? && !g.spawner.InputQueued? ==> n.executed == g.accepted)
    decreases |g.ready|, match g.pc case Idle => 0 case Fetching => 1 case Executing(_, _) => 2 case Matched(_) => 3
  {
    if !g.pc.Idle? {
      AdvancePossible(g);
      StepInv(g, Advance);
      var n := Step(g, Advance).value;
      ExecExecutesAll(n);
      if n.pc.Idle? && !n.spawner.InputQueued? { NothingWaits(n); }
    }
  }

  lemma AdvancePossible<I>(g: Group<I>)
    requires Inv(g) && !g.pc.Idle?
    ensures Step(g, Advance).Some?
  {
    if g.pc.Matched? {
      RefinesPop(Pending(g), Held(g.pc) + g.ready + Half(g.spawner), g.inputs);
    }
  }

  lemma NothingWaits<I>(g: Group<I>)
    requires Inv(g) && g.pc.Idle? && g.ready == [] && !g.spawner.InputQueued?
    ensures g.executed == g.accepted
  {
    IdleBacklog(g);
  }

  /** `exec` begins exactly when the interrupt is pended. */
  lemma ExecBeginsIff<I>(g: Group<I>)
    requires g.pc.Idle?
    ensures Step(g, Enter) == if g.irq then Some(g.(irq := false, pc := Fetching)) else None
  {
  }
}
