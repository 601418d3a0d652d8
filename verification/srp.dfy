/** Stack resource policy on a preemptive single core with BASEPRI: the generated handlers, `run`, `lock` and the
    exception rules of the Armv7-M Architecture Reference Manual (DDI 0403), B1.4.3 and B1.5.4. */
module Srp {
  import opened Wrappers
  import opened Priorities
  import opened Ceilings
  import opened ControlStack

  datatype App = App(bits: nat, tasks: seq<TaskDecl>, idleShared: seq<Resource>)

  /** Priority bits and task priorities in the supported range (the upper bound is asserted at compile time). */
  ghost predicate ValidApp(a: App) {
    1 <= a.bits <= 7 && forall t :: 0 <= t < |a.tasks| ==> 1 <= a.tasks[t].prio <= Levels(a.bits)
  }

  datatype Machine = Machine(ctl: seq<Entry>, basepri: nat, primask: bool, pending: set<Task>)

  datatype Action = Pend(t: Task) | Take(t: Task) | Lock(r: Resource) | Unlock | Return

  const THREAD_LEVEL: nat := 256

  /** The most urgent priority value among the active exceptions. */
  function ActiveCode(a: App, ctl: seq<Entry>): nat
    requires ValidApp(a)
  {
    if ctl == [] then THREAD_LEVEL
    else
      var rest := ActiveCode(a, ctl[..|ctl| - 1]);
      match ctl[|ctl| - 1]
      case Handler(t, _) =>
        if t < |a.tasks| && Code(a.tasks[t].prio, a.bits) < rest then Code(a.tasks[t].prio, a.bits) else rest
      case _ => rest
  }

  /** B1.5.4: the execution priority, from the active exceptions and the boosts by BASEPRI and PRIMASK. */
  function ExecutionPriority(a: App, ctl: seq<Entry>, basepri: nat, primask: bool): nat
    requires ValidApp(a)
  {
    var active := ActiveCode(a, ctl);
    if primask then 0
    else if basepri != 0 && basepri < active then basepri
    else active
  }

  /** A pending exception is taken if its priority value is below the execution priority. */
  predicate CanTake(a: App, m: Machine, t: Task)
    requires ValidApp(a)
  {
    t < |a.tasks| && Code(a.tasks[t].prio, a.bits) < ExecutionPriority(a, m.ctl, m.basepri, m.primask)
  }

  /** `basepri_max::write`: only ever raises the masking. */
  function BasepriMax(basepri: nat, value: nat): nat {
    if value != 0 && (basepri == 0 || value < basepri) then value else basepri
  }

  function Step(a: App, m: Machine, action: Action): Option<Machine>
    requires ValidApp(a)
  {
    if m.ctl == [] then None else
    var top := |m.ctl| - 1;
    match action
    case Pend(t) => if t < |a.tasks| then Some(m.(pending := m.pending + {t})) else None
    case Take(t) =>
      if t in m.pending && CanTake(a, m, t) then
        Some(m.(ctl := m.ctl + [Handler(t, Basepri(m.basepri))], pending := m.pending - {t}))
      else None
    case Lock(r) =>
      if r in SharedBy(a.tasks, a.idleShared, m.ctl[Owner(m.ctl, top)]) then
        var ceiling := Ceiling(a.tasks, r);
        CeilingInRange(a, a.tasks, r);
        if ceiling == Levels(a.bits) then Some(m.(ctl := m.ctl + [Held(r, Primask(m.primask))], primask := true))
        else
          Some(m.(ctl := m.ctl + [Held(r, Basepri(m.basepri))],
                  basepri := BasepriMax(m.basepri, Code(ceiling, a.bits))))
      else None
    case Unlock =>
      (match m.ctl[top]
       case Held(_, Basepri(current)) => Some(m.(ctl := m.ctl[..top], basepri := current))
       case Held(_, Primask(wasMasked)) => Some(m.(ctl := m.ctl[..top], primask := wasMasked))
       case _ => None)
    case Return =>
      (match m.ctl[top]
       case Handler(t, Basepri(initial)) =>
         Some(m.(ctl := m.ctl[..top], basepri := if t < |a.tasks| && a.tasks[t].prio == 1 then 0 else initial))
       case _ => None)
  }

  function Run(a: App, m: Machine, acts: seq<Action>): Option<Machine>
    requires ValidApp(a)
    decreases |acts|
  {
    if acts == [] then Some(m)
    else
      match Step(a, m, acts[0])
      case Some(n) => Run(a, n, acts[1..])
      case None => None
  }

  const BOOT := Machine([Idle], 0, false, {})

  // ----- What the registers stand for

  /** The highest ceiling locked through BASEPRI. */
  function SystemCeiling(a: App, ctl: seq<Entry>): nat {
    if ctl == [] then 0
    else
      var rest, e := SystemCeiling(a, ctl[..|ctl| - 1]), ctl[|ctl| - 1];
      if ByBasepri(e) && rest < Level(a.tasks, e) then Level(a.tasks, e) else rest
  }

  /** What an entry saved is what the registers were when it was pushed on `rest`. */
  ghost predicate GoodEntry(a: App, rest: seq<Entry>, e: Entry)
    requires ValidApp(a) && rest != [] && SystemCeiling(a, rest) < Levels(a.bits)
  {
    match e
    case Handler(t, Basepri(initial)) =>
      && t < |a.tasks|
      && initial == Code(SystemCeiling(a, rest), a.bits)
      && (forall i :: 0 <= i < |rest| ==> Level(a.tasks, rest[i]) < a.tasks[t].prio)
    case Held(r, Basepri(current)) =>
      && current == Code(SystemCeiling(a, rest), a.bits)
      && Declares(a.tasks, a.idleShared, rest, r) && Ceiling(a.tasks, r) < Levels(a.bits)
    case Held(r, Primask(wasMasked)) =>
      && wasMasked == InterruptsOff(rest)
      && Declares(a.tasks, a.idleShared, rest, r) && Ceiling(a.tasks, r) == Levels(a.bits)
    case _ => false
  }

  /** The control stack was built by the code above. */
  ghost predicate Good(a: App, ctl: seq<Entry>)
    requires ValidApp(a)
  {
    if |ctl| == 0 then false
    else if |ctl| == 1 then ctl[0] == Idle
    else
      var rest := ctl[..|ctl| - 1];
      Good(a, rest) && SystemCeiling(a, rest) < Levels(a.bits) && GoodEntry(a, rest, ctl[|ctl| - 1])
  }

  ghost predicate Inv(a: App, m: Machine)
    requires ValidApp(a)
  {
    && Good(a, m.ctl)
    && SystemCeiling(a, m.ctl) < Levels(a.bits)
    && m.basepri == Code(SystemCeiling(a, m.ctl), a.bits)
    && m.primask == InterruptsOff(m.ctl)
  }

  // ----- The execution priority, read off the control stack

  lemma {:induction false} ActiveCodeIsInnermost(a: App, ctl: seq<Entry>, p: nat)
    requires ValidApp(a) && 1 <= p <= Levels(a.bits)
    requires forall i :: 0 <= i < |ctl| && ctl[i].Handler? ==> ctl[i].t < |a.tasks|
    ensures Code(p, a.bits) < ActiveCode(a, ctl) <==>
              forall i :: 0 <= i < |ctl| && ctl[i].Handler? ==> Level(a.tasks, ctl[i]) < p
  {
    if ctl != [] {
      var top := |ctl| - 1;
      ActiveCodeIsInnermost(a, ctl[..top], p);
      if ctl[top].Handler? {
        CodeOrder(a.bits, a.tasks[ctl[top].t].prio, p);
        CodeOrder(a.bits, p, a.tasks[ctl[top].t].prio);
      }
      assert forall i :: 0 <= i < top ==> ctl[..top][i] == ctl[i];
    }
  }

  lemma {:induction false} SystemCeilingIsMax(a: App, ctl: seq<Entry>, p: nat)
    requires 1 <= p
    ensures SystemCeiling(a, ctl) < p <==>
              forall i :: 0 <= i < |ctl| && ByBasepri(ctl[i]) ==> Level(a.tasks, ctl[i]) < p
  {
    if ctl != [] {
      var top := |ctl| - 1;
      SystemCeilingIsMax(a, ctl[..top], p);
      assert forall i :: 0 <= i < top ==> ctl[..top][i] == ctl[i];
    }
  }

  lemma {:induction false} GoodEntries(a: App, ctl: seq<Entry>, i: nat)
    requires ValidApp(a) && Good(a, ctl) && i < |ctl|
    ensures i == 0 <==> ctl[i].Idle?
    ensures ctl[i].Handler? ==> ctl[i].t < |a.tasks|
    ensures ByBasepri(ctl[i]) ==> Ceiling(a.tasks, ctl[i].r) < Levels(a.bits)
    ensures ByPrimask(ctl[i]) ==> Ceiling(a.tasks, ctl[i].r) == Levels(a.bits)
    ensures ctl[i].Held? ==> ByBasepri(ctl[i]) || ByPrimask(ctl[i])
    ensures ctl[i].Held? ==> ctl[i].r in SharedBy(a.tasks, a.idleShared, ctl[Owner(ctl, i)])
  {
    var top := |ctl| - 1;
    if i < top {
      GoodEntries(a, ctl[..top], i);
      OwnerInPrefix(ctl, top, i);
    } else if top > 0 {
      OwnerInPrefix(ctl, top, top - 1);
    }
  }

  /** An exception is taken exactly when its task outranks every active handler and every ceiling held,
      whether the ceiling is held through BASEPRI or through PRIMASK. */
  lemma TakenIffAboveEverything(a: App, m: Machine, t: Task)
    requires ValidApp(a) && Inv(a, m) && t < |a.tasks|
    ensures CanTake(a, m, t) <==> forall i :: 0 <= i < |m.ctl| ==> Level(a.tasks, m.ctl[i]) < a.tasks[t].prio
  {
    var p, c := a.tasks[t].prio, SystemCeiling(a, m.ctl);
    forall i | 0 <= i < |m.ctl|
      ensures m.ctl[i].Handler? ==> m.ctl[i].t < |a.tasks|
      ensures m.ctl[i].Held? ==> ByBasepri(m.ctl[i]) || ByPrimask(m.ctl[i])
      ensures ByPrimask(m.ctl[i]) ==> Level(a.tasks, m.ctl[i]) == Levels(a.bits)
      ensures m.ctl[i].Idle? ==> Level(a.tasks, m.ctl[i]) == 0
    {
      GoodEntries(a, m.ctl, i);
    }
    ActiveCodeIsInnermost(a, m.ctl, p);
    SystemCeilingIsMax(a, m.ctl, p);
    InterruptsOffIffLocked(m.ctl);
    BasepriMasksUpToCeiling(a.bits, c, p);
  }

  // ----- The invariant

  lemma BasepriMaxIsMax(bits: nat, c: nat, d: nat)
    requires 1 <= bits <= 7 && c < Levels(bits) && d < Levels(bits)
    ensures BasepriMax(Code(c, bits), Code(d, bits)) == Code(if c < d then d else c, bits)
  {
    CodeZero(bits, c);
    CodeZero(bits, d);
    if c > 0 && d > 0 {
      CodeOrder(bits, c, d);
      CodeOrder(bits, d, c);
    }
  }

  lemma {:induction false} CeilingInRange(a: App, tasks: seq<TaskDecl>, r: Resource)
    requires ValidApp(a) && forall t :: 0 <= t < |tasks| ==> tasks[t].prio <= Levels(a.bits)
    ensures Ceiling(tasks, r) <= Levels(a.bits)
  {
    if tasks != [] { CeilingInRange(a, tasks[..|tasks| - 1], r); }
  }

  lemma TakeInv(a: App, m: Machine, t: Task)
    requires ValidApp(a) && Inv(a, m) && Step(a, m, Take(t)).Some?
    ensures Inv(a, Step(a, m, Take(t)).value)
  {
    var n := Step(a, m, Take(t)).value;
    TakenIffAboveEverything(a, m, t);
    PushedGood(a, m.ctl, Handler(t, Basepri(m.basepri)), n.ctl);
  }

  lemma PushedGood(a: App, ctl: seq<Entry>, e: Entry, ctl': seq<Entry>)
    requires ValidApp(a) && Good(a, ctl) && SystemCeiling(a, ctl) < Levels(a.bits)
    requires GoodEntry(a, ctl, e) && ctl' == ctl + [e]
    ensures Good(a, ctl') && InterruptsOff(ctl') == (InterruptsOff(ctl) || ByPrimask(e))
    ensures SystemCeiling(a, ctl') ==
            if ByBasepri(e) && SystemCeiling(a, ctl) < Level(a.tasks, e) then Level(a.tasks, e)
            else SystemCeiling(a, ctl)
  {
    assert ctl'[..|ctl'| - 1] == ctl;
  }

  lemma BasepriLockInv(a: App, m: Machine, r: Resource, n: Machine)
    requires ValidApp(a) && Inv(a, m) && m.ctl != [] && Ceiling(a.tasks, r) < Levels(a.bits)
    requires Declares(a.tasks, a.idleShared, m.ctl, r)
    requires n == m.(ctl := m.ctl + [Held(r, Basepri(m.basepri))],
                     basepri := BasepriMax(m.basepri, Code(Ceiling(a.tasks, r), a.bits)))
    ensures Inv(a, n)
  {
    PushedGood(a, m.ctl, Held(r, Basepri(m.basepri)), n.ctl);
    BasepriMaxIsMax(a.bits, SystemCeiling(a, m.ctl), Ceiling(a.tasks, r));
  }

  lemma PrimaskLockInv(a: App, m: Machine, r: Resource, n: Machine)
    requires ValidApp(a) && Inv(a, m) && m.ctl != [] && Ceiling(a.tasks, r) == Levels(a.bits)
    requires Declares(a.tasks, a.idleShared, m.ctl, r)
    requires n == m.(ctl := m.ctl + [Held(r, Primask(m.primask))], primask := true)
    ensures Inv(a, n)
  {
    PushedGood(a, m.ctl, Held(r, Primask(m.primask)), n.ctl);
  }

  lemma LockInv(a: App, m: Machine, r: Resource)
    requires ValidApp(a) && Inv(a, m) && Step(a, m, Lock(r)).Some?
    ensures Inv(a, Step(a, m, Lock(r)).value)
  {
    CeilingInRange(a, a.tasks, r);
    if Ceiling(a.tasks, r) < Levels(a.bits) {
      BasepriLockInv(a, m, r, Step(a, m, Lock(r)).value);
    } else {
      PrimaskLockInv(a, m, r, Step(a, m, Lock(r)).value);
    }
  }

  lemma UnlockInv(a: App, m: Machine)
    requires ValidApp(a) && Inv(a, m) && Step(a, m, Unlock).Some?
    ensures Inv(a, Step(a, m, Unlock).value)
  {
  }

  lemma ReturnInv(a: App, m: Machine)
    requires ValidApp(a) && Inv(a, m) && Step(a, m, Return).Some?
    ensures Inv(a, Step(a, m, Return).value)
  {
    ReturnRestores(a, m.ctl);
  }

  lemma StepInv(a: App, m: Machine, action: Action)
    requires ValidApp(a) && Inv(a, m) && Step(a, m, action).Some?
    ensures Inv(a, Step(a, m, action).value)
  {
    match action
    case Pend(_) =>
    case Take(t) => TakeInv(a, m, t);
    case Lock(r) => LockInv(a, m, r);
    case Unlock => UnlockInv(a, m);
    case Return => ReturnInv(a, m);
  }

  /** `run`: for a task of priority 1 BASEPRI was 0 at entry, so writing 0 restores it. */
  lemma ReturnRestores(a: App, ctl: seq<Entry>)
    requires ValidApp(a) && Good(a, ctl) && |ctl| > 1 && ctl[|ctl| - 1].Handler?
    ensures var e := ctl[|ctl| - 1]; e.saved.Basepri? && (a.tasks[e.t].prio == 1 ==> e.saved.value == 0)
    ensures SystemCeiling(a, ctl[..|ctl| - 1]) == SystemCeiling(a, ctl)
  {
    var rest, e := ctl[..|ctl| - 1], ctl[|ctl| - 1];
    if a.tasks[e.t].prio == 1 {
      SystemCeilingIsMax(a, rest, 1);
      CodeZero(a.bits, 0);
    }
  }

  lemma {:induction false} RunInv(a: App, m: Machine, acts: seq<Action>)
    requires ValidApp(a) && Inv(a, m) && Run(a, m, acts).Some?
    ensures Inv(a, Run(a, m, acts).value)
    decreases |acts|
  {
    if acts != [] {
      StepInv(a, m, acts[0]);
      RunInv(a, Step(a, m, acts[0]).value, acts[1..]);
    }
  }

  ghost predicate Reachable(a: App, acts: seq<Action>, m: Machine)
    requires ValidApp(a)
  {
    Run(a, BOOT, acts) == Some(m)
  }

  lemma ReachableInv(a: App, acts: seq<Action>, m: Machine)
    requires ValidApp(a) && Reachable(a, acts, m)
    ensures Inv(a, m)
  {
    CodeZero(a.bits, 0);
    RunInv(a, BOOT, acts);
  }

  // ----- The theorems

  lemma {:induction false} HandlersOutrank(a: App, ctl: seq<Entry>, i: nat, j: nat)
    requires ValidApp(a) && Good(a, ctl) && i < j < |ctl| && ctl[j].Handler?
    ensures Level(a.tasks, ctl[i]) < Level(a.tasks, ctl[j])
  {
    if j < |ctl| - 1 {
      HandlersOutrank(a, ctl[..|ctl| - 1], i, j);
    } else {
      assert ctl[..|ctl| - 1][i] == ctl[i];
    }
  }

  /** Every handler has a priority strictly above the handlers below it and above every ceiling held when it started. */
  lemma PreemptorsOutrankHolders(a: App, acts: seq<Action>, m: Machine, i: nat, j: nat)
    requires ValidApp(a) && Reachable(a, acts, m) && i < j < |m.ctl| && m.ctl[j].Handler?
    ensures Level(a.tasks, m.ctl[i]) < Level(a.tasks, m.ctl[j])
  {
    ReachableInv(a, acts, m);
    GoodEntries(a, m.ctl, j);
    HandlersOutrank(a, m.ctl, i, j);
  }

  /** Two locks held at the same time with ceilings not below the second holder's priority have the same holder. */
  lemma SameHolder(a: App, ctl: seq<Entry>, i: nat, j: nat)
    requires ValidApp(a) && Good(a, ctl) && i < j < |ctl| && ctl[i].Held? && ctl[j].Held?
    requires Level(a.tasks, ctl[Owner(ctl, j)]) <= Level(a.tasks, ctl[i])
    ensures Owner(ctl, i) == Owner(ctl, j)
  {
    var o := Owner(ctl, j);
    GoodEntries(a, ctl, o);
    if i < o {
      HandlersOutrank(a, ctl, i, o);
    } else {
      GoodEntries(a, ctl, i);
      OwnerBelow(ctl, i, j);
    }
  }

  /** SRP mutual exclusion: two locks on the same resource that are held at once are held by one and the same
      handler, so no handler ever enters a resource that another one holds. */
  lemma MutualExclusion(a: App, acts: seq<Action>, m: Machine, i: nat, j: nat)
    requires ValidApp(a) && Reachable(a, acts, m) && i < j < |m.ctl|
    requires m.ctl[i].Held? && m.ctl[j].Held? && m.ctl[i].r == m.ctl[j].r
    ensures Owner(m.ctl, i) == Owner(m.ctl, j)
  {
    ReachableInv(a, acts, m);
    GoodEntries(a, m.ctl, j);
    CeilingIsMax(a.tasks, m.ctl[j].r);
    GoodEntries(a, m.ctl, Owner(m.ctl, j));
    SameHolder(a, m.ctl, i, j);
  }

  /** The blocking bound: for every priority `p`, at most one handler below `p` holds resources with a ceiling
      of at least `p`. */
  lemma AtMostOneBlocker(a: App, acts: seq<Action>, m: Machine, p: nat, i: nat, j: nat)
    requires ValidApp(a) && Reachable(a, acts, m) && i < j < |m.ctl| && m.ctl[i].Held? && m.ctl[j].Held?
    requires Level(a.tasks, m.ctl[i]) >= p && Level(a.tasks, m.ctl[j]) >= p
    requires Level(a.tasks, m.ctl[Owner(m.ctl, i)]) < p && Level(a.tasks, m.ctl[Owner(m.ctl, j)]) < p
    ensures Owner(m.ctl, i) == Owner(m.ctl, j)
  {
    ReachableInv(a, acts, m);
    SameHolder(a, m.ctl, i, j);
  }

  /** When a pended task is held back, a handler of its priority or above is active, or a ceiling of at least its
      priority is held; otherwise it can be taken at once. */
  lemma DelayedOnlyBySrp(a: App, acts: seq<Action>, m: Machine, t: Task)
    requires ValidApp(a) && Reachable(a, acts, m) && t in m.pending && t < |a.tasks|
    ensures Step(a, m, Take(t)).Some? <==> forall i :: 0 <= i < |m.ctl| ==> Level(a.tasks, m.ctl[i]) < a.tasks[t].prio
  {
    ReachableInv(a, acts, m);
    TakenIffAboveEverything(a, m, t);
  }

  /** Which operation is possible when: a frame may lock what it shares, leave the closure or the handler that is on
      top, and any task may become pending. */
  lemma WhatIsPossible(a: App, acts: seq<Action>, m: Machine)
    requires ValidApp(a) && Reachable(a, acts, m)
    ensures m.ctl != []
    ensures var h := m.ctl[Owner(m.ctl, |m.ctl| - 1)];
            && (h.Idle? || (h.Handler? && h.t < |a.tasks|))
            && forall r :: Step(a, m, Lock(r)).Some? <==> r in if h.Idle? then a.idleShared else a.tasks[h.t].shared
    ensures Step(a, m, Unlock).Some? <==> m.ctl[|m.ctl| - 1].Held?
    ensures Step(a, m, Return).Some? <==> m.ctl[|m.ctl| - 1].Handler?
    ensures forall t: Task ::
              Step(a, m, Pend(t)) == if t < |a.tasks| then Some(m.(pending := m.pending + {t})) else None
  {
    ReachableInv(a, acts, m);
    GoodEntries(a, m.ctl, |m.ctl| - 1);
    GoodEntries(a, m.ctl, Owner(m.ctl, |m.ctl| - 1));
  }

  /** `lock` keeps out the tasks up to the ceiling, in addition to those that were kept out before, and nobody else; its
      end undoes it. */
  lemma LockKeepsOut(a: App, acts: seq<Action>, m: Machine, r: Resource, n: Machine)
    requires ValidApp(a) && Reachable(a, acts, m) && Step(a, m, Lock(r)) == Some(n)
    ensures forall t :: 0 <= t < |a.tasks| ==>
                          (CanTake(a, n, t) <==> CanTake(a, m, t) && Ceiling(a.tasks, r) < a.tasks[t].prio)
    ensures |n.ctl| == |m.ctl| + 1 && n.ctl[..|m.ctl|] == m.ctl && n.ctl[|m.ctl|].Held? && n.ctl[|m.ctl|].r == r
    ensures n.pending == m.pending && Step(a, n, Unlock) == Some(m)
  {
    ReachableInv(a, acts, m);
    LockInv(a, m, r);
    forall t | 0 <= t < |a.tasks|
      ensures CanTake(a, n, t) <==> CanTake(a, m, t) && Ceiling(a.tasks, r) < a.tasks[t].prio
    {
      TakenIffAboveEverything(a, m, t);
      TakenIffAboveEverything(a, n, t);
      OneMoreLevel(a, m.ctl, n.ctl, a.tasks[t].prio);
    }
  }

  lemma OneMoreLevel(a: App, ctl: seq<Entry>, ctl': seq<Entry>, p: nat)
    requires |ctl'| == |ctl| + 1 && ctl'[..|ctl|] == ctl
    ensures (forall i :: 0 <= i < |ctl'| ==> Level(a.tasks, ctl'[i]) < p) <==>
            (forall i :: 0 <= i < |ctl| ==> Level(a.tasks, ctl[i]) < p) && Level(a.tasks, ctl'[|ctl|]) < p
  {
    assert forall i :: 0 <= i < |ctl| ==> ctl'[i] == ctl[i];
  }

  /** A handler that starts keeps out the tasks up to its own priority, and its return undoes that. */
  lemma HandlerKeepsOut(a: App, acts: seq<Action>, m: Machine, t: Task, n: Machine)
    requires ValidApp(a) && Reachable(a, acts, m) && Step(a, m, Take(t)) == Some(n)
    ensures t < |a.tasks| && t in m.pending && n.pending == m.pending - {t}
    ensures forall u :: 0 <= u < |a.tasks| ==>
                          (CanTake(a, n, u) <==> CanTake(a, m, u) && a.tasks[t].prio < a.tasks[u].prio)
    ensures |n.ctl| == |m.ctl| + 1 && n.ctl[..|m.ctl|] == m.ctl && n.ctl[|m.ctl|].Handler? && n.ctl[|m.ctl|].t == t
    ensures Step(a, n, Return) == Some(m.(pending := n.pending))
  {
    ReachableInv(a, acts, m);
    TakeInv(a, m, t);
    forall u | 0 <= u < |a.tasks|
      ensures CanTake(a, n, u) <==> CanTake(a, m, u) && a.tasks[t].prio < a.tasks[u].prio
    {
      TakenIffAboveEverything(a, m, u);
      TakenIffAboveEverything(a, n, u);
      OneMoreLevel(a, m.ctl, n.ctl, a.tasks[u].prio);
    }
    ReturnRestores(a, n.ctl);
  }

  /** `lock` never waits: at the moment it is called no other frame is inside the resource, and the caller itself only
      if it calls `lock` inside its own closure. */
  lemma LockNeverWaits(a: App, acts: seq<Action>, m: Machine, r: Resource)
    requires ValidApp(a) && Reachable(a, acts, m) && Step(a, m, Lock(r)).Some?
    ensures forall k :: 0 <= k < |m.ctl| && m.ctl[k].Held? && m.ctl[k].r == r ==>
                          Owner(m.ctl, k) == Owner(m.ctl, |m.ctl| - 1)
  {
    ReachableInv(a, acts, m);
    var top := |m.ctl| - 1;
    var o := Owner(m.ctl, top);
    SharerBelowCeiling(a.tasks, a.idleShared, m.ctl[o], r);
    forall k | 0 <= k < |m.ctl| && m.ctl[k].Held? && m.ctl[k].r == r ensures Owner(m.ctl, k) == o {
      GoodEntries(a, m.ctl, o);
      if k < o {
        HandlersOutrank(a, m.ctl, k, o);
      } else {
        OwnerBelow(m.ctl, k, top);
      }
    }
  }

  /** Nested `lock` and `run` calls restore: BASEPRI and PRIMASK depend on the control stack alone, so whenever a
      handler or a closure is left, both are what they were when it was entered. */
  lemma RegistersRestored(a: App, acts: seq<Action>, m: Machine, acts2: seq<Action>, n: Machine)
    requires ValidApp(a) && Reachable(a, acts, m) && Reachable(a, acts2, n) && m.ctl == n.ctl
    ensures m.basepri == n.basepri && m.primask == n.primask
    ensures m.ctl == [Idle] ==> m.basepri == 0 && !m.primask
  {
    ReachableInv(a, acts, m);
    ReachableInv(a, acts2, n);
    CodeZero(a.bits, 0);
  }

  function Handlers(ctl: seq<Entry>): nat {
    if ctl == [] then 0 else Handlers(ctl[..|ctl| - 1]) + if ctl[|ctl| - 1].Handler? then 1 else 0
  }

  ghost function StackedPriorities(a: App, ctl: seq<Entry>): set<nat> {
    set i | 0 <= i < |ctl| && ctl[i].Handler? :: Level(a.tasks, ctl[i])
  }

  lemma StackedAfter(a: App, ctl: seq<Entry>)
    requires ctl != []
    ensures var front, top := ctl[..|ctl| - 1], ctl[|ctl| - 1];
            StackedPriorities(a, ctl) ==
            StackedPriorities(a, front) + if top.Handler? then {Level(a.tasks, top)} else {}
  {
    var front, top := ctl[..|ctl| - 1], ctl[|ctl| - 1];
    forall i | 0 <= i < |front| ensures front[i] == ctl[i] { }
    forall p | p in StackedPriorities(a, front) ensures p in StackedPriorities(a, ctl) {
      var i :| 0 <= i < |front| && front[i].Handler? && Level(a.tasks, front[i]) == p;
      assert ctl[i].Handler?;
    }
  }

  lemma TopIsNew(a: App, ctl: seq<Entry>)
    requires ValidApp(a) && Good(a, ctl) && ctl[|ctl| - 1].Handler?
    ensures Level(a.tasks, ctl[|ctl| - 1]) !in StackedPriorities(a, ctl[..|ctl| - 1])
  {
    var top := |ctl| - 1;
    forall i | 0 <= i < top ensures Level(a.tasks, ctl[..top][i]) < Level(a.tasks, ctl[top]) {
      HandlersOutrank(a, ctl, i, top);
    }
  }

  lemma {:induction false} HandlersCounted(a: App, ctl: seq<Entry>)
    requires ValidApp(a) && Good(a, ctl)
    ensures Handlers(ctl) == |StackedPriorities(a, ctl)|
  {
    if |ctl| == 1 {
      assert StackedPriorities(a, ctl) == {};
      assert Handlers(ctl[..0]) == 0;
    } else {
      HandlersCounted(a, ctl[..|ctl| - 1]);
      StackedAfter(a, ctl);
      if ctl[|ctl| - 1].Handler? { TopIsNew(a, ctl); }
    }
  }

  /** The stack is no deeper than idle plus one handler per distinct task priority. */
  lemma StackDepth(a: App, acts: seq<Action>, m: Machine)
    requires ValidApp(a) && Reachable(a, acts, m)
    ensures Handlers(m.ctl) <= |set t | 0 <= t < |a.tasks| :: a.tasks[t].prio|
  {
    ReachableInv(a, acts, m);
    HandlersCounted(a, m.ctl);
    var all := set t | 0 <= t < |a.tasks| :: a.tasks[t].prio;
    forall i | 0 <= i < |m.ctl| && m.ctl[i].Handler? ensures Level(a.tasks, m.ctl[i]) in all {
      GoodEntries(a, m.ctl, i);
    }
    SubsetSize(StackedPriorities(a, m.ctl), all);
  }
}
