/** Locking by interrupt source masks (armv6-m): a preemptive single core with the NVIC enable bits, which are written
    one word at a time, and PRIMASK.  Whether the locks exclude depends on the application; the exact condition is
    `Sealed`. */
module SourceLocks {
  import opened Wrappers
  import opened Ceilings
  import opened ControlStack
  import SourceMasks

  /** `irq[t]` is the interrupt that task `t` is bound to, `None` for a core exception such as SysTick, which has no
      enable bit in the NVIC.  A mask has `words` words of 32 interrupts, as many as cover the interrupts in use. */
  datatype App = App(tasks: seq<TaskDecl>, irq: seq<Option<nat>>, idleShared: seq<Resource>, words: nat)

  function WordOf(irq: nat): nat {
    irq / 32
  }

  ghost predicate ValidApp(a: App) {
    && |a.irq| == |a.tasks| && a.words >= 1
    && (forall t :: 0 <= t < |a.tasks| ==> a.tasks[t].prio >= 1)
    && (forall t :: 0 <= t < |a.irq| && a.irq[t].Some? ==> WordOf(a.irq[t].value) < a.words)
    && (forall s, t :: 0 <= s < |a.irq| && 0 <= t < |a.irq| && a.irq[s].Some? && a.irq[s] == a.irq[t] ==> s == t)
  }

  /** The interrupts in the mask of `lock(current, ceiling)`. */
  function MaskOf(a: App, current: nat, ceiling: nat): set<nat>
    requires |a.irq| == |a.tasks|
  {
    set t | 0 <= t < |a.tasks| && a.irq[t].Some? && current < a.tasks[t].prio <= ceiling :: a.irq[t].value
  }

  function AllIrqs(a: App): set<nat>
    requires |a.irq| == |a.tasks|
  {
    set t | 0 <= t < |a.tasks| && a.irq[t].Some? :: a.irq[t].value
  }

  function Bounds(a: App): seq<SourceMasks.Bound>
    requires |a.irq| == |a.tasks|
  {
    seq(|a.tasks|, t requires 0 <= t < |a.tasks| => SourceMasks.Bound(a.irq[t], a.tasks[t].prio))
  }

  /** It is the mask that `compute_mask` computes from the generated table (`SourceMasks.LockMask`). */
  lemma MaskOfIsComputed(a: App, current: nat, ceiling: nat, n: nat)
    requires |a.irq| == |a.tasks|
    ensures n in MaskOf(a, current, ceiling) <==> SourceMasks.Between(Bounds(a), n, current, ceiling)
  {
    var bs := Bounds(a);
    if n in MaskOf(a, current, ceiling) {
      var t :| 0 <= t < |a.tasks| && a.irq[t] == Some(n) && current < a.tasks[t].prio <= ceiling;
      assert bs[t] in bs;
    }
    if SourceMasks.Between(bs, n, current, ceiling) {
      var b :| b in bs && b.irq == Some(n) && current < b.prio <= ceiling;
      var t :| 0 <= t < |bs| && bs[t] == b;
    }
  }

  datatype Machine = Machine(ctl: seq<Entry>, enabled: set<nat>, primask: bool, pending: set<Task>)

  /** `Lock` calls `lock`, `Unlock` ends the closure, and `Write` clears or sets the next word of the mask. */
  datatype Action = Pend(t: Task) | Take(t: Task) | Lock(r: Resource) | Write | Unlock | Return

  /** The interrupts of a mask in the words from `lo` up to and without `hi`. */
  function Part(mask: set<nat>, lo: nat, hi: nat): set<nat> {
    set n | n in mask && lo <= WordOf(n) < hi
  }

  /** The closure of this call of `lock` runs. */
  predicate Inside(a: App, e: Entry) {
    e.Held? && (BySources(e) ==> !e.saved.leaving && e.saved.word == a.words)
  }

  /** Not masked, enabled if it has an enable bit, and above every active handler. */
  predicate CanTake(a: App, m: Machine, t: Task)
    requires |a.irq| == |a.tasks|
  {
    && t < |a.tasks| && !m.primask
    && (a.irq[t].Some? ==> a.irq[t].value in m.enabled)
    && forall i :: 0 <= i < |m.ctl| ==> Prio(a.tasks, m.ctl[i]) < a.tasks[t].prio
  }

  function Top(ctl: seq<Entry>): Entry
    requires ctl != []
  {
    ctl[Owner(ctl, |ctl| - 1)]
  }

  /** What `lock` saves: nothing if the task is already at the ceiling, PRIMASK from ceiling 4 on, else the mask. */
  function Entered(a: App, m: Machine, r: Resource): Saved
    requires |a.irq| == |a.tasks| && m.ctl != []
  {
    var current, ceiling := Prio(a.tasks, Top(m.ctl)), Ceiling(a.tasks, r);
    if current >= ceiling then Nothing
    else if ceiling >= 4 then Primask(m.primask)
    else Sources(MaskOf(a, current, ceiling), 0, false)
  }

  function Step(a: App, m: Machine, action: Action): Option<Machine>
    requires |a.irq| == |a.tasks|
  {
    if m.ctl == [] then None else
    var top := |m.ctl| - 1;
    match action
    case Pend(t) => if t < |a.tasks| then Some(m.(pending := m.pending + {t})) else None
    case Take(t) =>
      if t in m.pending && CanTake(a, m, t) then
        Some(m.(ctl := m.ctl + [Handler(t, Nothing)], pending := m.pending - {t}))
      else None
    case Lock(r) =>
      if r !in SharedBy(a.tasks, a.idleShared, Top(m.ctl)) || (m.ctl[top].Held? && !Inside(a, m.ctl[top])) then None
      else
        var saved := Entered(a, m, r);
        Some(m.(ctl := m.ctl + [Held(r, saved)], primask := m.primask || saved.Primask?))
    case Write =>
      (match m.ctl[top]
       case Held(r, Sources(mask, word, leaving)) =>
         if word >= a.words then None
         else if !leaving then
           Some(m.(ctl := m.ctl[..top] + [Held(r, Sources(mask, word + 1, false))],
                   enabled := m.enabled - Part(mask, word, word + 1)))
         else
           Some(m.(ctl := m.ctl[..top] + if word + 1 < a.words then [Held(r, Sources(mask, word + 1, true))] else [],
                   enabled := m.enabled + Part(mask, word, word + 1)))
       case _ => None)
    case Unlock =>
      (match m.ctl[top]
       case Held(r, Sources(mask, _, _)) =>
         if Inside(a, m.ctl[top]) then Some(m.(ctl := m.ctl[..top] + [Held(r, Sources(mask, 0, true))])) else None
       case Held(_, Primask(wasMasked)) => Some(m.(ctl := m.ctl[..top], primask := wasMasked))
       case Held(_, Nothing) => Some(m.(ctl := m.ctl[..top]))
       case _ => None)
    case Return => if m.ctl[top].Handler? then Some(m.(ctl := m.ctl[..top])) else None
  }

  /** The running frame is inside a source-masked lock. */
  predicate HoldsMask(ctl: seq<Entry>) {
    ctl != [] && exists k :: Owner(ctl, |ctl| - 1) < k < |ctl| && BySources(ctl[k])
  }

  /** Without nesting, no frame takes a source-masked lock inside another one of its own. */
  predicate Allowed(a: App, m: Machine, action: Action, nesting: bool)
    requires |a.irq| == |a.tasks|
  {
    nesting || !action.Lock? || m.ctl == [] || !Entered(a, m, action.r).Sources? || !HoldsMask(m.ctl)
  }

  function Run(a: App, m: Machine, acts: seq<Action>): Option<Machine>
    requires |a.irq| == |a.tasks|
    decreases |acts|
  {
    if acts == [] then Some(m)
    else
      var last := |acts| - 1;
      match Run(a, m, acts[..last])
      case Some(n) => Step(a, n, acts[last])
      case None => None
  }

  /** Every action was allowed when it was taken. */
  predicate Disciplined(a: App, m: Machine, acts: seq<Action>, nesting: bool)
    requires |a.irq| == |a.tasks|
    decreases |acts|
  {
    acts == [] ||
    (var last := |acts| - 1;
     Disciplined(a, m, acts[..last], nesting) &&
     match Run(a, m, acts[..last])
     case Some(n) => Allowed(a, n, acts[last], nesting)
     case None => true)
  }

  /** After `post_init` every interrupt in use is enabled. */
  function Boot(a: App): Machine
    requires |a.irq| == |a.tasks|
  {
    Machine([Idle], AllIrqs(a), false, {})
  }

  ghost predicate Reachable(a: App, nesting: bool, acts: seq<Action>, m: Machine)
    requires ValidApp(a)
  {
    Run(a, Boot(a), acts) == Some(m) && Disciplined(a, Boot(a), acts, nesting)
  }

  /** `k` writes in a row, with nobody in between. */
  function Writes(a: App, m: Machine, k: nat): Option<Machine>
    requires |a.irq| == |a.tasks|
    decreases k
  {
    if k == 0 then Some(m)
    else
      match Step(a, m, Write)
      case Some(n) => Writes(a, n, k - 1)
      case None => None
  }

  lemma Extend(a: App, nesting: bool, acts: seq<Action>, m: Machine, act: Action)
    requires ValidApp(a) && Reachable(a, nesting, acts, m) && Step(a, m, act).Some? && Allowed(a, m, act, nesting)
    ensures Reachable(a, nesting, acts + [act], Step(a, m, act).value)
  {
    assert (acts + [act])[..|acts|] == acts;
  }

  // ----- When a task slips into a lock

  /** A frame that shares the resources `shared` can take a source-masked lock whose mask reaches up to `level`, and so
      enables that level when it leaves the lock. */
  predicate Reopens(a: App, shared: seq<Resource>, level: nat) {
    exists k :: 0 <= k < |shared| && level <= Ceiling(a.tasks, shared[k]) < 4
  }

  /** Task `t` can start inside a source-masked lock of ceiling `c` that a frame of priority `p` holds: `t` has no
      enable bit, or somebody opens the way. */
  ghost predicate Slips(a: App, nesting: bool, p: nat, c: nat, t: Task)
    requires ValidApp(a)
    decreases if t < |a.tasks| then a.tasks[t].prio else 0
  {
    && t < |a.tasks| && p < a.tasks[t].prio <= c < 4
    && (a.irq[t].None? || Opened(a, nesting, p, c, t))
  }

  /** Somebody enables the interrupt of `t` once it is cleared: the frame itself, by a nested lock, or some task below
      `t` that slipped in, or one that came before its own word was cleared, but after that of `t`. */
  ghost predicate Opened(a: App, nesting: bool, p: nat, c: nat, t: Task)
    requires ValidApp(a) && t < |a.tasks|
    decreases a.tasks[t].prio, 0
  {
    || nesting
    || exists u :: 0 <= u < |a.tasks| && a.tasks[u].prio < a.tasks[t].prio &&
                   Reopens(a, a.tasks[u].shared, a.tasks[t].prio) &&
                   (Slips(a, nesting, p, c, u) || Overtakes(a, p, u, t))
  }

  /** Task `u` can still start on top of a frame of priority `p` that has cleared the word of `t`, but not its own. */
  predicate Overtakes(a: App, p: nat, u: Task, t: Task)
    requires |a.irq| == |a.tasks| && u < |a.tasks| && t < |a.tasks|
  {
    p < a.tasks[u].prio && a.irq[u].Some? && a.irq[t].Some? && WordOf(a.irq[t].value) < WordOf(a.irq[u].value)
  }

  // ----- The invariant

  function HolderPrio(a: App, ctl: seq<Entry>, i: nat): nat
    requires i < |ctl|
  {
    Prio(a.tasks, ctl[Owner(ctl, i)])
  }

  /** What a call of `lock` has cleared and not set again. */
  function Cleared(e: Entry): set<nat> {
    if !BySources(e) then {}
    else set n | n in e.saved.mask && (WordOf(n) < e.saved.word <==> !e.saved.leaving)
  }

  /** What the source-masked locks on the stack have disabled. */
  function Disabled(ctl: seq<Entry>): set<nat> {
    if ctl == [] then {} else Disabled(ctl[..|ctl| - 1]) + Cleared(ctl[|ctl| - 1])
  }

  /** The word of this task is one that `e`, which is not being left, has not cleared yet. */
  predicate NotYet(a: App, e: Entry, t: Task)
    requires BySources(e) && t < |a.irq|
  {
    a.irq[t].Some? && e.saved.word <= WordOf(a.irq[t].value)
  }

  /** A handler that started on top of the entry at `i`. */
  ghost predicate Outranks(a: App, nesting: bool, rest: seq<Entry>, i: nat, t: Task)
    requires ValidApp(a) && i < |rest| && t < |a.tasks|
  {
    && Prio(a.tasks, rest[i]) < a.tasks[t].prio && !ByPrimask(rest[i])
    && (BySources(rest[i]) && !rest[i].saved.leaving && a.tasks[t].prio <= Ceiling(a.tasks, rest[i].r) ==>
          || NotYet(a, rest[i], t)
          || Slips(a, nesting, HolderPrio(a, rest, i), Ceiling(a.tasks, rest[i].r), t))
  }

  ghost predicate GoodEntry(a: App, nesting: bool, rest: seq<Entry>, e: Entry)
    requires ValidApp(a) && rest != []
  {
    match e
    case Handler(t, Nothing) => t < |a.tasks| && forall i :: 0 <= i < |rest| ==> Outranks(a, nesting, rest, i, t)
    case Held(r, saved) =>
      var p, c := Prio(a.tasks, Top(rest)), Ceiling(a.tasks, r);
      && Declares(a.tasks, a.idleShared, rest, r)
      && (match saved
          case Nothing => c <= p
          case Primask(wasMasked) => wasMasked == InterruptsOff(rest)
          case Sources(mask, word, leaving) =>
            && p < c < 4 && mask == MaskOf(a, p, c) && (nesting || !HoldsMask(rest))
            && word <= a.words && (leaving ==> word < a.words)
          case Basepri(_) => false)
    case _ => false
  }

  ghost predicate Good(a: App, nesting: bool, ctl: seq<Entry>)
    requires ValidApp(a)
  {
    if |ctl| == 0 then false
    else if |ctl| == 1 then ctl[0] == Idle
    else Good(a, nesting, ctl[..|ctl| - 1]) && GoodEntry(a, nesting, ctl[..|ctl| - 1], ctl[|ctl| - 1])
  }

  /** An interrupt of the mask of the lock at `i` is enabled before it is left only if its word is not cleared yet or
      somebody has opened it. */
  ghost predicate Tight(a: App, nesting: bool, ctl: seq<Entry>, enabled: set<nat>, i: nat, t: Task)
    requires ValidApp(a) && i < |ctl| && t < |a.tasks|
  {
    BySources(ctl[i]) && !ctl[i].saved.leaving && a.irq[t].Some? && a.irq[t].value in enabled &&
    HolderPrio(a, ctl, i) < a.tasks[t].prio <= Ceiling(a.tasks, ctl[i].r) ==>
      || NotYet(a, ctl[i], t)
      || Opened(a, nesting, HolderPrio(a, ctl, i), Ceiling(a.tasks, ctl[i].r), t)
  }

  ghost predicate AllTight(a: App, nesting: bool, ctl: seq<Entry>, enabled: set<nat>)
    requires ValidApp(a)
  {
    forall i, t :: 0 <= i < |ctl| && 0 <= t < |a.tasks| ==> Tight(a, nesting, ctl, enabled, i, t)
  }

  /** What no lock on the stack has disabled is enabled. */
  ghost predicate Bits(a: App, m: Machine)
    requires ValidApp(a)
  {
    && AllIrqs(a) - Disabled(m.ctl) <= m.enabled <= AllIrqs(a)
    && m.primask == InterruptsOff(m.ctl)
  }

  ghost predicate Inv(a: App, nesting: bool, m: Machine)
    requires ValidApp(a)
  {
    Good(a, nesting, m.ctl) && AllTight(a, nesting, m.ctl, m.enabled) && Bits(a, m)
  }

  lemma {:induction false} GoodPrefix(a: App, nesting: bool, ctl: seq<Entry>, n: nat)
    requires ValidApp(a) && Good(a, nesting, ctl) && 1 <= n <= |ctl|
    ensures Good(a, nesting, ctl[..n])
  {
    if n < |ctl| {
      GoodPrefix(a, nesting, ctl[..|ctl| - 1], n);
      assert ctl[..|ctl| - 1][..n] == ctl[..n];
    } else {
      assert ctl[..n] == ctl;
    }
  }

  /** Every entry was good when it was pushed. */
  lemma GoodAt(a: App, nesting: bool, ctl: seq<Entry>, i: nat)
    requires ValidApp(a) && Good(a, nesting, ctl) && i < |ctl|
    ensures if i == 0 then ctl[i] == Idle else GoodEntry(a, nesting, ctl[..i], ctl[i])
  {
    GoodPrefix(a, nesting, ctl, i + 1);
    var q := ctl[..i + 1];
    assert q[..|q| - 1] == ctl[..i] && q[|q| - 1] == ctl[i];
  }

  /** What `GoodAt` says of a lock, in terms of the whole stack. */
  lemma LockAt(a: App, nesting: bool, ctl: seq<Entry>, i: nat)
    requires ValidApp(a) && Good(a, nesting, ctl) && i < |ctl| && ctl[i].Held?
    ensures ctl[i].r in SharedBy(a.tasks, a.idleShared, ctl[Owner(ctl, i)])
    ensures HolderPrio(a, ctl, i) <= Ceiling(a.tasks, ctl[i].r)
    ensures BySources(ctl[i]) ==>
              var p, c := HolderPrio(a, ctl, i), Ceiling(a.tasks, ctl[i].r);
              && p < c < 4 && ctl[i].saved.mask == MaskOf(a, p, c)
              && ctl[i].saved.word <= a.words && (ctl[i].saved.leaving ==> ctl[i].saved.word < a.words)
    ensures ctl[i].saved.Nothing? ==> Ceiling(a.tasks, ctl[i].r) <= HolderPrio(a, ctl, i)
    ensures ctl[i].saved.Nothing? || ByPrimask(ctl[i]) || BySources(ctl[i])
  {
    GoodAt(a, nesting, ctl, i);
    OwnerInPrefix(ctl, i, i - 1);
    HolderShares(a.tasks, a.idleShared, ctl, i);
  }

  /** What it says of a handler. */
  lemma HandlerAt(a: App, nesting: bool, ctl: seq<Entry>, i: nat, j: nat)
    requires ValidApp(a) && Good(a, nesting, ctl) && i < j < |ctl| && ctl[j].Handler?
    ensures ctl[j].t < |a.tasks| && Outranks(a, nesting, ctl, i, ctl[j].t)
  {
    GoodAt(a, nesting, ctl, j);
    assert Outranks(a, nesting, ctl[..j], i, ctl[j].t);
    OwnerInPrefix(ctl, j, i);
  }

  lemma {:induction false} DisabledBy(ctl: seq<Entry>, n: nat) returns (i: nat)
    requires n in Disabled(ctl)
    ensures i < |ctl| && BySources(ctl[i]) && n in Cleared(ctl[i])
  {
    var top := |ctl| - 1;
    if n in Cleared(ctl[top]) {
      i := top;
    } else {
      i := DisabledBy(ctl[..top], n);
    }
  }

  lemma OffIfLocked(ctl: seq<Entry>, i: nat)
    requires i < |ctl| && ByPrimask(ctl[i])
    ensures InterruptsOff(ctl)
  {
    InterruptsOffIffLocked(ctl);
  }

  /** Whatever can be taken outranks every entry, or slips in. */
  lemma TakenOutranks(a: App, nesting: bool, m: Machine, t: Task, i: nat)
    requires ValidApp(a) && Inv(a, nesting, m) && CanTake(a, m, t) && i < |m.ctl|
    ensures Outranks(a, nesting, m.ctl, i, t)
  {
    if ByPrimask(m.ctl[i]) {
      OffIfLocked(m.ctl, i);
    } else if BySources(m.ctl[i]) {
      LockAt(a, nesting, m.ctl, i);
      assert Tight(a, nesting, m.ctl, m.enabled, i, t);
    }
  }

  lemma PushedGood(a: App, nesting: bool, ctl: seq<Entry>, e: Entry, ctl': seq<Entry>)
    requires ValidApp(a) && Good(a, nesting, ctl) && GoodEntry(a, nesting, ctl, e) && ctl' == ctl + [e]
    ensures Good(a, nesting, ctl') && InterruptsOff(ctl') == (InterruptsOff(ctl) || ByPrimask(e))
    ensures Disabled(ctl') == Disabled(ctl) + Cleared(e)
  {
    assert ctl'[..|ctl'| - 1] == ctl;
  }

  /** The locks below the top entry by themselves. */
  lemma TightBelow(a: App, nesting: bool, m: Machine)
    requires ValidApp(a) && Inv(a, nesting, m) && |m.ctl| > 1
    ensures AllTight(a, nesting, m.ctl[..|m.ctl| - 1], m.enabled)
  {
    var top := |m.ctl| - 1;
    forall i, t | 0 <= i < top && 0 <= t < |a.tasks| ensures Tight(a, nesting, m.ctl[..top], m.enabled, i, t) {
      OwnerInPrefix(m.ctl, top, i);
      assert Tight(a, nesting, m.ctl, m.enabled, i, t);
    }
  }

  /** One more entry, tight by itself, and fewer enabled interrupts keep all locks tight. */
  lemma PushTight(a: App, nesting: bool, ctl: seq<Entry>, enabled: set<nat>, e: Entry, ctl': seq<Entry>,
                  enabled': set<nat>)
    requires ValidApp(a) && AllTight(a, nesting, ctl, enabled) && ctl' == ctl + [e] && enabled' <= enabled
    requires forall t :: 0 <= t < |a.tasks| ==> Tight(a, nesting, ctl', enabled', |ctl|, t)
    ensures AllTight(a, nesting, ctl', enabled')
  {
    forall i, t | 0 <= i < |ctl'| && 0 <= t < |a.tasks| ensures Tight(a, nesting, ctl', enabled', i, t) {
      if i < |ctl| {
        assert ctl'[..|ctl|] == ctl;
        OwnerInPrefix(ctl', |ctl|, i);
        assert Tight(a, nesting, ctl, enabled, i, t);
      }
    }
  }

  lemma TakeInv(a: App, nesting: bool, m: Machine, t: Task)
    requires ValidApp(a) && Inv(a, nesting, m) && Step(a, m, Take(t)).Some?
    ensures Inv(a, nesting, Step(a, m, Take(t)).value)
  {
    var n := Step(a, m, Take(t)).value;
    forall i | 0 <= i < |m.ctl| ensures Outranks(a, nesting, m.ctl, i, t) {
      TakenOutranks(a, nesting, m, t, i);
    }
    PushedGood(a, nesting, m.ctl, Handler(t, Nothing), n.ctl);
    PushTight(a, nesting, m.ctl, m.enabled, Handler(t, Nothing), n.ctl, n.enabled);
  }

  /** What `lock` pushes. */
  lemma LockPushes(a: App, nesting: bool, m: Machine, r: Resource)
    requires ValidApp(a) && m.ctl != [] && m.primask == InterruptsOff(m.ctl)
    requires Step(a, m, Lock(r)).Some? && Allowed(a, m, Lock(r), nesting)
    ensures GoodEntry(a, nesting, m.ctl, Held(r, Entered(a, m, r)))
  {
  }

  lemma LockInv(a: App, nesting: bool, m: Machine, r: Resource)
    requires ValidApp(a) && Inv(a, nesting, m) && Step(a, m, Lock(r)).Some? && Allowed(a, m, Lock(r), nesting)
    ensures Inv(a, nesting, Step(a, m, Lock(r)).value)
  {
    var n := Step(a, m, Lock(r)).value;
    var e := Held(r, Entered(a, m, r));
    LockPushes(a, nesting, m, r);
    PushedGood(a, nesting, m.ctl, e, n.ctl);
    PushTight(a, nesting, m.ctl, m.enabled, e, n.ctl, n.enabled);
  }

  /** The top lock clears its next word. */
  lemma ClearInv(a: App, nesting: bool, m: Machine)
    requires ValidApp(a) && Inv(a, nesting, m) && Step(a, m, Write).Some? && !m.ctl[|m.ctl| - 1].saved.leaving
    ensures Inv(a, nesting, Step(a, m, Write).value)
  {
    var n := Step(a, m, Write).value;
    var top := |m.ctl| - 1;
    var rest, e := m.ctl[..top], n.ctl[top];
    TightBelow(a, nesting, m);
    PushedGood(a, nesting, rest, e, n.ctl);
    forall t | 0 <= t < |a.tasks| ensures Tight(a, nesting, n.ctl, n.enabled, top, t) {
      ClearTight(a, nesting, m, n, t);
    }
    PushTight(a, nesting, rest, m.enabled, e, n.ctl, n.enabled);
    assert Disabled(m.ctl) == Disabled(rest) + Cleared(m.ctl[top]);
    WordCleared(m.ctl[top], e);
  }

  lemma WordCleared(e: Entry, e': Entry)
    requires BySources(e) && BySources(e') && !e.saved.leaving && !e'.saved.leaving
    requires e'.saved.mask == e.saved.mask && e'.saved.word == e.saved.word + 1
    ensures Cleared(e') == Cleared(e) + Part(e.saved.mask, e.saved.word, e.saved.word + 1)
  {
  }

  lemma ClearTight(a: App, nesting: bool, m: Machine, n: Machine, t: Task)
    requires ValidApp(a) && Inv(a, nesting, m) && Good(a, nesting, n.ctl) && t < |a.tasks|
    requires Step(a, m, Write) == Some(n) && !m.ctl[|m.ctl| - 1].saved.leaving
    ensures Tight(a, nesting, n.ctl, n.enabled, |m.ctl| - 1, t)
  {
    var top := |m.ctl| - 1;
    SameHolder(a, m.ctl, n.ctl, top);
    assert Tight(a, nesting, m.ctl, m.enabled, top, t);
    LockAt(a, nesting, n.ctl, top);
  }

  lemma SameHolder(a: App, ctl: seq<Entry>, ctl': seq<Entry>, top: nat)
    requires 1 <= top < |ctl| && top < |ctl'| && ctl[..top] == ctl'[..top] && ctl[top].Held? && ctl'[top].Held?
    ensures HolderPrio(a, ctl', top) == HolderPrio(a, ctl, top)
  {
    OwnerInPrefix(ctl, top, top - 1);
    OwnerInPrefix(ctl', top, top - 1);
  }

  /** A word set by the top lock opens interrupts under the locks of lower frames only if its own frame has slipped
      into them or overtaken their clearing. */
  lemma SetTight(a: App, nesting: bool, m: Machine, i: nat, t: Task)
    requires ValidApp(a) && Inv(a, nesting, m) && |m.ctl| > 1 && BySources(m.ctl[|m.ctl| - 1])
    requires i < |m.ctl| - 1 && t < |a.tasks|
    ensures var top := |m.ctl| - 1;
            Tight(a, nesting, m.ctl[..top], m.enabled + m.ctl[top].saved.mask, i, t)
  {
    var top := |m.ctl| - 1;
    var rest, e := m.ctl[..top], m.ctl[top];
    OwnerInPrefix(m.ctl, top, i);
    assert Tight(a, nesting, m.ctl, m.enabled, i, t);
    if BySources(rest[i]) && a.irq[t].Some? && a.irq[t].value in e.saved.mask && !nesting {
      var o := Owner(rest, top - 1);
      assert !HoldsMask(rest) && i < o;
      GoodAt(a, nesting, rest, o);
      HandlerAt(a, nesting, rest, i, o);
      OpensBelow(a, rest, e, t);
      FrameBelow(a, nesting, rest, i, o);
    }
  }

  /** A handler outranks the frame of every lock below it. */
  lemma FrameBelow(a: App, nesting: bool, ctl: seq<Entry>, i: nat, o: nat)
    requires ValidApp(a) && Good(a, nesting, ctl) && i < o < |ctl| && ctl[o].Handler?
    ensures ctl[o].t < |a.tasks| && HolderPrio(a, ctl, i) < a.tasks[ctl[o].t].prio
  {
    HandlerAt(a, nesting, ctl, Owner(ctl, i), o);
  }

  /** A task of the mask of `e` is one that the frame of `e` reopens. */
  lemma OpensBelow(a: App, rest: seq<Entry>, e: Entry, t: Task)
    requires ValidApp(a) && rest != [] && Top(rest).Handler? && Top(rest).t < |a.tasks| && t < |a.tasks|
    requires BySources(e) && GoodEntry(a, false, rest, e) && a.irq[t].Some? && a.irq[t].value in e.saved.mask
    ensures a.tasks[Top(rest).t].prio < a.tasks[t].prio && Reopens(a, a.tasks[Top(rest).t].shared, a.tasks[t].prio)
  {
    var u := Top(rest).t;
    var s :| 0 <= s < |a.tasks| && a.irq[s] == a.irq[t] && a.tasks[u].prio < a.tasks[s].prio <= Ceiling(a.tasks, e.r);
    assert s == t;
    var k :| 0 <= k < |a.tasks[u].shared| && a.tasks[u].shared[k] == e.r;
  }

  /** The top lock sets its next word. */
  lemma SetInv(a: App, nesting: bool, m: Machine)
    requires ValidApp(a) && Inv(a, nesting, m) && Step(a, m, Write).Some? && m.ctl[|m.ctl| - 1].saved.leaving
    ensures Inv(a, nesting, Step(a, m, Write).value)
  {
    var n := Step(a, m, Write).value;
    var top := |m.ctl| - 1;
    var rest := m.ctl[..top];
    forall i, t | 0 <= i < top && 0 <= t < |a.tasks| ensures Tight(a, nesting, rest, n.enabled, i, t) {
      SetTight(a, nesting, m, i, t);
    }
    if |n.ctl| > top {
      PushedGood(a, nesting, rest, n.ctl[top], n.ctl);
      PushTight(a, nesting, rest, n.enabled, n.ctl[top], n.ctl, n.enabled);
    } else {
      assert n.ctl == rest;
    }
    SetBits(a, nesting, m);
  }

  lemma SetBits(a: App, nesting: bool, m: Machine)
    requires ValidApp(a) && Good(a, nesting, m.ctl) && Bits(a, m) && Step(a, m, Write).Some?
    requires m.ctl[|m.ctl| - 1].saved.leaving
    ensures Bits(a, Step(a, m, Write).value)
  {
    var n := Step(a, m, Write).value;
    var top := |m.ctl| - 1;
    var rest, e := m.ctl[..top], m.ctl[top];
    LockAt(a, nesting, m.ctl, top);
    assert e.saved.mask <= AllIrqs(a);
    assert forall x :: x in Cleared(e) ==> WordOf(x) < a.words;
    if |n.ctl| > top {
      assert n.ctl[..top] == rest;
    } else {
      assert n.ctl == rest;
    }
  }

  lemma UnlockInv(a: App, nesting: bool, m: Machine)
    requires ValidApp(a) && Inv(a, nesting, m) && Step(a, m, Unlock).Some?
    ensures Inv(a, nesting, Step(a, m, Unlock).value)
  {
    var n := Step(a, m, Unlock).value;
    var top := |m.ctl| - 1;
    var rest := m.ctl[..top];
    TightBelow(a, nesting, m);
    if BySources(m.ctl[top]) {
      PushedGood(a, nesting, rest, n.ctl[top], n.ctl);
      PushTight(a, nesting, rest, m.enabled, n.ctl[top], n.ctl, n.enabled);
      UnlockKeepsCleared(a, nesting, m);
    }
  }

  /** When the closure ends, all words of the mask are cleared, and none of them is set yet. */
  lemma UnlockKeepsCleared(a: App, nesting: bool, m: Machine)
    requires ValidApp(a) && Good(a, nesting, m.ctl) && Step(a, m, Unlock).Some? && BySources(m.ctl[|m.ctl| - 1])
    ensures Cleared(Step(a, m, Unlock).value.ctl[|m.ctl| - 1]) == Cleared(m.ctl[|m.ctl| - 1])
  {
    LockAt(a, nesting, m.ctl, |m.ctl| - 1);
  }

  lemma ReturnInv(a: App, nesting: bool, m: Machine)
    requires ValidApp(a) && Inv(a, nesting, m) && Step(a, m, Return).Some?
    ensures Inv(a, nesting, Step(a, m, Return).value)
  {
    var n := Step(a, m, Return).value;
    assert n.ctl == m.ctl[..|m.ctl| - 1];
    TightBelow(a, nesting, m);
  }

  lemma StepInv(a: App, nesting: bool, m: Machine, action: Action)
    requires ValidApp(a) && Inv(a, nesting, m) && Step(a, m, action).Some? && Allowed(a, m, action, nesting)
    ensures Inv(a, nesting, Step(a, m, action).value)
  {
    match action
    case Pend(_) =>
    case Take(t) => TakeInv(a, nesting, m, t);
    case Lock(r) => LockInv(a, nesting, m, r);
    case Write => if m.ctl[|m.ctl| - 1].saved.leaving { SetInv(a, nesting, m); } else { ClearInv(a, nesting, m); }
    case Unlock => UnlockInv(a, nesting, m);
    case Return => ReturnInv(a, nesting, m);
  }

  lemma {:induction false} RunInv(a: App, nesting: bool, acts: seq<Action>, m: Machine)
    requires ValidApp(a) && Reachable(a, nesting, acts, m)
    ensures Inv(a, nesting, m)
    decreases |acts|
  {
    if acts != [] {
      var last := |acts| - 1;
      var before := Run(a, Boot(a), acts[..last]).value;
      RunInv(a, nesting, acts[..last], before);
      StepInv(a, nesting, before, acts[last]);
    }
  }

  // ----- What a lock does

  /** Which operation is possible when: a frame may lock what it shares, unless it is itself entering or leaving a lock;
      what it enters it clears word by word, and its exit sets it again. */
  lemma WhatIsPossible(a: App, nesting: bool, acts: seq<Action>, m: Machine)
    requires ValidApp(a) && Reachable(a, nesting, acts, m)
    ensures m.ctl != []
    ensures var e, h := m.ctl[|m.ctl| - 1], m.ctl[Owner(m.ctl, |m.ctl| - 1)];
            && (h.Idle? || (h.Handler? && h.t < |a.tasks|))
            && (forall r :: Step(a, m, Lock(r)).Some? <==>
                            r in (if h.Idle? then a.idleShared else a.tasks[h.t].shared) && (e.Held? ==> Inside(a, e)))
            && (Step(a, m, Write).Some? <==> e.Held? && !Inside(a, e))
            && (Step(a, m, Unlock).Some? <==> Inside(a, e))
            && (Step(a, m, Return).Some? <==> e.Handler?)
    ensures forall t: Task ::
              && Step(a, m, Pend(t)) == (if t < |a.tasks| then Some(m.(pending := m.pending + {t})) else None)
              && (Step(a, m, Take(t)).Some? <==> t in m.pending && CanTake(a, m, t))
  {
    RunInv(a, nesting, acts, m);
    GoodAt(a, nesting, m.ctl, |m.ctl| - 1);
    GoodAt(a, nesting, m.ctl, Owner(m.ctl, |m.ctl| - 1));
  }

  /** A handler starts on top of everything and is no longer pending; its return leaves what it found. */
  lemma HandlerBegins(a: App, m: Machine, t: Task, n: Machine)
    requires |a.irq| == |a.tasks| && Step(a, m, Take(t)) == Some(n)
    ensures n == m.(ctl := m.ctl + [Handler(t, Nothing)], pending := m.pending - {t})
    ensures Step(a, n, Return) == Some(m.(pending := n.pending))
  {
    assert n.ctl[..|m.ctl|] == m.ctl;
  }

  /** What a call of `lock` saves and changes at once: nothing at or above the ceiling; all interrupts are off for the
      ceilings from 4 on; else it starts to clear the interrupts of the tasks above the frame and up to the ceiling. */
  lemma LockBegins(a: App, m: Machine, r: Resource, n: Machine)
    requires |a.irq| == |a.tasks| && m.ctl != [] && Step(a, m, Lock(r)) == Some(n)
    ensures var p, c := Prio(a.tasks, Top(m.ctl)), Ceiling(a.tasks, r);
            && n.enabled == m.enabled && n.pending == m.pending
            && |n.ctl| == |m.ctl| + 1 && n.ctl[..|m.ctl|] == m.ctl
            && (if c <= p then n.ctl[|m.ctl|] == Held(r, Nothing) && n.primask == m.primask && Inside(a, n.ctl[|m.ctl|])
                else if c >= 4 then n.primask && Inside(a, n.ctl[|m.ctl|])
                else
                  && n.primask == m.primask && BySources(n.ctl[|m.ctl|])
                  && forall t :: 0 <= t < |a.tasks| && a.irq[t].Some? && p < a.tasks[t].prio <= c ==>
                                   a.irq[t].value in n.ctl[|m.ctl|].saved.mask)
  {
  }

  /** A write changes the enable bits of one word, and there only those of the mask, and goes on to the next word; after
      the last one the closure runs, or the lock is left. */
  lemma OneWordAtATime(a: App, m: Machine, n: Machine)
    requires |a.irq| == |a.tasks| && m.ctl != [] && Step(a, m, Write) == Some(n)
    ensures var top := |m.ctl| - 1;
            && BySources(m.ctl[top]) && n.primask == m.primask && n.pending == m.pending && n.ctl[..top] == m.ctl[..top]
            && var (mask, w, leaving) := (m.ctl[top].saved.mask, m.ctl[top].saved.word, m.ctl[top].saved.leaving);
            && w < a.words
            && (forall x :: x in n.enabled <==> if x in mask && WordOf(x) == w then leaving else x in m.enabled)
            && (if leaving && w + 1 == a.words then |n.ctl| == top
                else |n.ctl| == top + 1 && n.ctl[top] == Held(m.ctl[top].r, Sources(mask, w + 1, leaving)))
  {
  }

  /** An entry that nobody interrupts keeps out exactly the tasks with an enable bit above the frame and up to the
      ceiling, in addition to those that were kept out before. */
  lemma EntryKeepsOut(a: App, m: Machine, r: Resource)
    requires ValidApp(a) && m.ctl != [] && Step(a, m, Lock(r)).Some?
    requires Prio(a.tasks, Top(m.ctl)) < Ceiling(a.tasks, r) < 4
    ensures Writes(a, Step(a, m, Lock(r)).value, a.words).Some?
    ensures var p, c := Prio(a.tasks, Top(m.ctl)), Ceiling(a.tasks, r);
            var n := Writes(a, Step(a, m, Lock(r)).value, a.words).value;
            && |n.ctl| == |m.ctl| + 1 && Inside(a, n.ctl[|m.ctl|]) && n.ctl[..|m.ctl|] == m.ctl
            && forall t :: 0 <= t < |a.tasks| ==>
                             (CanTake(a, n, t) <==> CanTake(a, m, t) && (a.irq[t].None? || !(p < a.tasks[t].prio <= c)))
  {
    var p, c := Prio(a.tasks, Top(m.ctl)), Ceiling(a.tasks, r);
    var mask, begun := MaskOf(a, p, c), Step(a, m, Lock(r)).value;
    ClearWords(a, begun, m.ctl, r, mask, 0, a.words);
    var n := Writes(a, begun, a.words).value;
    forall t | 0 <= t < |a.tasks|
      ensures CanTake(a, n, t) <==> CanTake(a, m, t) && (a.irq[t].None? || !(p < a.tasks[t].prio <= c))
    {
      SameFrames(a, m.ctl, n.ctl, a.tasks[t].prio);
      if a.irq[t].Some? && a.irq[t].value in mask {
        assert forall s :: 0 <= s < |a.tasks| && a.irq[s] == a.irq[t] ==> s == t;
      }
    }
  }

  lemma SameFrames(a: App, ctl: seq<Entry>, ctl': seq<Entry>, p: nat)
    requires |ctl'| == |ctl| + 1 && ctl'[..|ctl|] == ctl && ctl'[|ctl|].Held? && p >= 1
    ensures (forall i :: 0 <= i < |ctl'| ==> Prio(a.tasks, ctl'[i]) < p) <==>
            (forall i :: 0 <= i < |ctl| ==> Prio(a.tasks, ctl[i]) < p)
  {
    assert forall i :: 0 <= i < |ctl| ==> ctl'[i] == ctl[i];
  }

  // ----- Exclusion

  predicate Clash(a: App, ctl: seq<Entry>, i: nat, j: nat)
    requires i < j < |ctl|
  {
    Inside(a, ctl[i]) && Inside(a, ctl[j]) && ctl[i].r == ctl[j].r && Owner(ctl, i) != Owner(ctl, j)
  }

  /** Two frames are inside their closures on the same resource. */
  predicate Violated(a: App, m: Machine) {
    exists i, j :: 0 <= i < j < |m.ctl| && Clash(a, m.ctl, i, j)
  }

  /** No task slips into a source-masked lock on a resource in `shared` that it shares, taken at priority `p`. */
  ghost predicate SealedFrame(a: App, nesting: bool, p: nat, shared: seq<Resource>)
    requires ValidApp(a)
  {
    forall k, t :: 0 <= k < |shared| && 0 <= t < |a.tasks| && shared[k] in a.tasks[t].shared ==>
                     !Slips(a, nesting, p, Ceiling(a.tasks, shared[k]), t)
  }

  ghost predicate Sealed(a: App, nesting: bool)
    requires ValidApp(a)
  {
    && SealedFrame(a, nesting, 0, a.idleShared)
    && forall f :: 0 <= f < |a.tasks| ==> SealedFrame(a, nesting, a.tasks[f].prio, a.tasks[f].shared)
  }

  /** In a sealed application, two closures on the same resource that run at once are run by one and the same frame;
      the upper one may even be one that is about to run or has just ended. */
  lemma MutualExclusion(a: App, nesting: bool, acts: seq<Action>, m: Machine, i: nat, j: nat)
    requires ValidApp(a) && Sealed(a, nesting) && Reachable(a, nesting, acts, m) && i < j < |m.ctl|
    requires Inside(a, m.ctl[i]) && m.ctl[j].Held? && m.ctl[i].r == m.ctl[j].r
    ensures Owner(m.ctl, i) == Owner(m.ctl, j)
  {
    RunInv(a, nesting, acts, m);
    var o := Owner(m.ctl, j);
    if i < o {
      GoodAt(a, nesting, m.ctl, o);
      SecondHolderSlips(a, nesting, m.ctl, i, j);
      HolderSealed(a, nesting, m.ctl, i, m.ctl[o].t);
    } else {
      OwnerBelow(m.ctl, i, j);
    }
  }

  lemma SecondHolderSlips(a: App, nesting: bool, ctl: seq<Entry>, i: nat, j: nat)
    requires ValidApp(a) && Good(a, nesting, ctl) && i < j < |ctl| && Inside(a, ctl[i]) && ctl[j].Held?
    requires ctl[i].r == ctl[j].r && i < Owner(ctl, j) && ctl[Owner(ctl, j)].Handler?
    ensures var t := ctl[Owner(ctl, j)].t;
            && t < |a.tasks| && ctl[i].r in a.tasks[t].shared
            && Slips(a, nesting, HolderPrio(a, ctl, i), Ceiling(a.tasks, ctl[i].r), t)
  {
    var o := Owner(ctl, j);
    LockAt(a, nesting, ctl, i);
    LockAt(a, nesting, ctl, j);
    HandlerAt(a, nesting, ctl, i, o);
    HandlerAt(a, nesting, ctl, Owner(ctl, i), o);
  }

  lemma HolderSealed(a: App, nesting: bool, ctl: seq<Entry>, i: nat, t: Task)
    requires ValidApp(a) && Sealed(a, nesting) && Good(a, nesting, ctl) && i < |ctl| && ctl[i].Held?
    requires t < |a.tasks| && ctl[i].r in a.tasks[t].shared
    ensures !Slips(a, nesting, HolderPrio(a, ctl, i), Ceiling(a.tasks, ctl[i].r), t)
  {
    LockAt(a, nesting, ctl, i);
    var h := ctl[Owner(ctl, i)];
    var k :| 0 <= k < |SharedBy(a.tasks, a.idleShared, h)| && SharedBy(a.tasks, a.idleShared, h)[k] == ctl[i].r;
    if h.Handler? {
      assert SealedFrame(a, nesting, a.tasks[h.t].prio, a.tasks[h.t].shared);
    }
  }

  // ----- The runs that break it

  /** A quiet point of a run: nothing is pending, PRIMASK is clear and no active frame is above priority `p`. */
  ghost predicate Quiet(a: App, nesting: bool, acts: seq<Action>, m: Machine, p: nat)
    requires ValidApp(a)
  {
    && Reachable(a, nesting, acts, m) && m.ctl != [] && !m.primask && m.pending == {}
    && forall i :: 0 <= i < |m.ctl| ==> Prio(a.tasks, m.ctl[i]) <= p
  }

  lemma {:induction false} ExtendBy(a: App, nesting: bool, acts: seq<Action>, m: Machine, k: nat)
    returns (acts': seq<Action>)
    requires ValidApp(a) && Reachable(a, nesting, acts, m) && Writes(a, m, k).Some?
    ensures Reachable(a, nesting, acts', Writes(a, m, k).value)
    decreases k
  {
    acts' := acts;
    if k > 0 {
      Extend(a, nesting, acts, m, Write);
      acts' := ExtendBy(a, nesting, acts + [Write], Step(a, m, Write).value, k - 1);
    }
  }

  lemma FirstPart(enabled: set<nat>, mask: set<nat>, lo: nat, hi: nat)
    requires lo < hi
    ensures enabled - Part(mask, lo, lo + 1) - Part(mask, lo + 1, hi) == enabled - Part(mask, lo, hi)
    ensures enabled + Part(mask, lo, lo + 1) + Part(mask, lo + 1, hi) == enabled + Part(mask, lo, hi)
  {
    assert Part(mask, lo, hi) == Part(mask, lo, lo + 1) + Part(mask, lo + 1, hi);
  }

  /** The top lock has cleared the words up to `hi`. */
  function ClearedTo(m: Machine, rest: seq<Entry>, r: Resource, mask: set<nat>, lo: nat, hi: nat): Machine {
    m.(ctl := rest + [Held(r, Sources(mask, hi, false))], enabled := m.enabled - Part(mask, lo, hi))
  }

  lemma ClearNext(a: App, m: Machine, rest: seq<Entry>, r: Resource, mask: set<nat>, lo: nat)
    requires |a.irq| == |a.tasks| && lo < a.words && m.ctl == rest + [Held(r, Sources(mask, lo, false))]
    ensures Step(a, m, Write) == Some(ClearedTo(m, rest, r, mask, lo, lo + 1))
  {
    assert m.ctl[..|rest|] == rest;
  }

  /** The words from `lo` on, up to `hi`, are cleared. */
  lemma {:induction false} ClearWords(a: App, m: Machine, rest: seq<Entry>, r: Resource, mask: set<nat>, lo: nat,
                                      hi: nat)
    requires |a.irq| == |a.tasks| && lo <= hi <= a.words && m.ctl == rest + [Held(r, Sources(mask, lo, false))]
    ensures Writes(a, m, hi - lo) == Some(ClearedTo(m, rest, r, mask, lo, hi))
    decreases hi - lo
  {
    if lo == hi {
      assert m.enabled - Part(mask, lo, lo) == m.enabled;
    } else {
      ClearNext(a, m, rest, r, mask, lo);
      ClearWords(a, ClearedTo(m, rest, r, mask, lo, lo + 1), rest, r, mask, lo + 1, hi);
      FirstPart(m.enabled, mask, lo, hi);
    }
  }

  lemma SetNext(a: App, m: Machine, rest: seq<Entry>, r: Resource, mask: set<nat>, lo: nat)
    requires |a.irq| == |a.tasks| && lo < a.words && m.ctl == rest + [Held(r, Sources(mask, lo, true))]
    ensures var ctl := rest + if lo + 1 < a.words then [Held(r, Sources(mask, lo + 1, true))] else [];
            Step(a, m, Write) == Some(m.(ctl := ctl, enabled := m.enabled + Part(mask, lo, lo + 1)))
  {
    assert m.ctl[..|rest|] == rest;
  }

  /** The words from `lo` on are set again, and the lock is left. */
  lemma {:induction false} SetWords(a: App, m: Machine, rest: seq<Entry>, r: Resource, mask: set<nat>, lo: nat)
    requires |a.irq| == |a.tasks| && lo < a.words && m.ctl == rest + [Held(r, Sources(mask, lo, true))]
    ensures Writes(a, m, a.words - lo) == Some(m.(ctl := rest, enabled := m.enabled + Part(mask, lo, a.words)))
    decreases a.words - lo
  {
    SetNext(a, m, rest, r, mask, lo);
    var n := Step(a, m, Write).value;
    if lo + 1 == a.words {
      assert n.ctl == rest && Writes(a, n, 0) == Some(n);
    } else {
      SetWords(a, n, rest, r, mask, lo + 1);
      FirstPart(m.enabled, mask, lo, a.words);
    }
  }

  /** An exit that nobody interrupts sets the whole mask. */
  lemma ExitSetsMask(a: App, m: Machine, rest: seq<Entry>, r: Resource, mask: set<nat>)
    requires |a.irq| == |a.tasks| && a.words >= 1 && (forall n :: n in mask ==> WordOf(n) < a.words)
    requires m.ctl == rest + [Held(r, Sources(mask, a.words, false))]
    ensures Step(a, m, Unlock).Some?
    ensures Writes(a, Step(a, m, Unlock).value, a.words) == Some(m.(ctl := rest, enabled := m.enabled + mask))
  {
    var n := m.(ctl := rest + [Held(r, Sources(mask, 0, true))]);
    assert Step(a, m, Unlock) == Some(n) by { assert m.ctl[..|rest|] == rest; }
    SetWords(a, n, rest, r, mask, 0);
    assert Part(mask, 0, a.words) == mask;
  }

  lemma TakeRun(a: App, nesting: bool, acts: seq<Action>, m: Machine, p: nat, t: Task)
    returns (acts': seq<Action>, m': Machine)
    requires ValidApp(a) && Quiet(a, nesting, acts, m, p) && t < |a.tasks| && p < a.tasks[t].prio
    requires a.irq[t].Some? ==> a.irq[t].value in m.enabled
    ensures Quiet(a, nesting, acts', m', a.tasks[t].prio)
    ensures m' == m.(ctl := m.ctl + [Handler(t, Nothing)])
  {
    Extend(a, nesting, acts, m, Pend(t));
    var n := Step(a, m, Pend(t)).value;
    Extend(a, nesting, acts + [Pend(t)], n, Take(t));
    m' := Step(a, n, Take(t)).value;
    acts' := acts + [Pend(t)] + [Take(t)];
  }

  lemma LockOnTop(a: App, ctl: seq<Entry>, e: Entry, ctl': seq<Entry>, p: nat)
    requires ctl' == ctl + [e] && e.Held? && forall i :: 0 <= i < |ctl| ==> Prio(a.tasks, ctl[i]) <= p
    ensures forall i :: 0 <= i < |ctl'| ==> Prio(a.tasks, ctl'[i]) <= p
  {
  }

  /** The running frame begins to take a source-masked lock and clears `k` words. */
  lemma BeginRun(a: App, nesting: bool, acts: seq<Action>, m: Machine, p: nat, r: Resource, k: nat)
    returns (acts': seq<Action>, m': Machine)
    requires ValidApp(a) && Quiet(a, nesting, acts, m, p) && k <= a.words
    requires r in SharedBy(a.tasks, a.idleShared, Top(m.ctl)) && (nesting || !HoldsMask(m.ctl))
    requires m.ctl[|m.ctl| - 1].Held? ==> Inside(a, m.ctl[|m.ctl| - 1])
    requires Prio(a.tasks, Top(m.ctl)) < Ceiling(a.tasks, r) < 4
    ensures Quiet(a, nesting, acts', m', p)
    ensures var mask := MaskOf(a, Prio(a.tasks, Top(m.ctl)), Ceiling(a.tasks, r));
            m' == m.(ctl := m.ctl + [Held(r, Sources(mask, k, false))], enabled := m.enabled - Part(mask, 0, k))
  {
    var mask := MaskOf(a, Prio(a.tasks, Top(m.ctl)), Ceiling(a.tasks, r));
    Extend(a, nesting, acts, m, Lock(r));
    var n := m.(ctl := m.ctl + [Held(r, Sources(mask, 0, false))]);
    assert Step(a, m, Lock(r)) == Some(n);
    ClearWords(a, n, m.ctl, r, mask, 0, k);
    acts' := ExtendBy(a, nesting, acts + [Lock(r)], n, k);
    m' := ClearedTo(n, m.ctl, r, mask, 0, k);
    assert Reachable(a, nesting, acts', m');
    LockOnTop(a, m.ctl, m'.ctl[|m.ctl|], m'.ctl, p);
  }

  /** The running frame takes and leaves a source-masked lock that reaches up to `t`. */
  lemma ReopenRun(a: App, nesting: bool, acts: seq<Action>, m: Machine, p: nat, r: Resource, t: Task)
    returns (acts': seq<Action>, m': Machine)
    requires ValidApp(a) && Quiet(a, nesting, acts, m, p) && t < |a.tasks| && a.irq[t].Some?
    requires r in SharedBy(a.tasks, a.idleShared, Top(m.ctl)) && (nesting || !HoldsMask(m.ctl))
    requires m.ctl[|m.ctl| - 1].Held? ==> Inside(a, m.ctl[|m.ctl| - 1])
    requires Prio(a.tasks, Top(m.ctl)) <= p < a.tasks[t].prio <= Ceiling(a.tasks, r) < 4
    ensures Quiet(a, nesting, acts', m', p) && a.irq[t].value in m'.enabled && m'.ctl == m.ctl
  {
    var mask := MaskOf(a, Prio(a.tasks, Top(m.ctl)), Ceiling(a.tasks, r));
    var acts1, inside := BeginRun(a, nesting, acts, m, p, r, a.words);
    ExitSetsMask(a, inside, m.ctl, r, mask);
    Extend(a, nesting, acts1, inside, Unlock);
    var leaving := Step(a, inside, Unlock).value;
    acts' := ExtendBy(a, nesting, acts1 + [Unlock], leaving, a.words);
    m' := Writes(a, leaving, a.words).value;
    assert a.irq[t].value in mask;
  }

  /** A frame that can start after boot: the idle task or a task's handler. */
  ghost predicate Frame(a: App, h: Entry) {
    h == Idle || (h.Handler? && h.t < |a.tasks| && h.saved == Nothing)
  }

  /** The stack below a lock of frame `h`, and the mask of that lock. */
  function BaseOf(h: Entry): seq<Entry> {
    if h == Idle then [Idle] else [Idle, h]
  }

  function LockOf(a: App, h: Entry, r: Resource, word: nat): Entry
    requires |a.irq| == |a.tasks|
  {
    Held(r, Sources(MaskOf(a, Prio(a.tasks, h), Ceiling(a.tasks, r)), word, false))
  }

  /** Frame `h` begins to take a source-masked lock and clears `k` words. */
  lemma HolderRun(a: App, nesting: bool, h: Entry, r: Resource, k: nat) returns (acts: seq<Action>, m: Machine)
    requires ValidApp(a) && Frame(a, h) && r in SharedBy(a.tasks, a.idleShared, h) && k <= a.words
    requires Prio(a.tasks, h) < Ceiling(a.tasks, r) < 4
    ensures Quiet(a, nesting, acts, m, Prio(a.tasks, h)) && m.ctl == BaseOf(h) + [LockOf(a, h, r, k)]
    ensures forall t :: 0 <= t < |a.tasks| && a.irq[t].Some? && k <= WordOf(a.irq[t].value) ==>
                        a.irq[t].value in m.enabled
  {
    acts, m := [], Boot(a);
    if h.Handler? {
      acts, m := TakeRun(a, nesting, acts, m, 0, h.t);
    }
    assert m.ctl == BaseOf(h) && Top(m.ctl) == h && !HoldsMask(m.ctl);
    acts, m := BeginRun(a, nesting, acts, m, Prio(a.tasks, h), r, k);
  }

  /** Frame `h` has cleared some words, and goes on until it is inside its closure. */
  lemma EnterRun(a: App, nesting: bool, acts: seq<Action>, m: Machine, p: nat, h: Entry, r: Resource, w: nat)
    returns (acts': seq<Action>, m': Machine)
    requires ValidApp(a) && Quiet(a, nesting, acts, m, p) && m.ctl == BaseOf(h) + [LockOf(a, h, r, w)] && w <= a.words
    ensures Quiet(a, nesting, acts', m', p) && m'.ctl == BaseOf(h) + [LockOf(a, h, r, a.words)]
    ensures forall n :: n in m.enabled && WordOf(n) < w ==> n in m'.enabled
  {
    var base, mask := BaseOf(h), MaskOf(a, Prio(a.tasks, h), Ceiling(a.tasks, r));
    m' := ClearedTo(m, base, r, mask, w, a.words);
    ClearWords(a, m, base, r, mask, w, a.words);
    acts' := ExtendBy(a, nesting, acts, m, a.words - w);
    assert forall i :: 0 <= i < |base| ==> base[i] == m.ctl[i];
    LockOnTop(a, base, LockOf(a, h, r, a.words), m'.ctl, p);
  }

  /** `u` starts, takes and leaves a lock that reaches up to `t`, and returns. */
  lemma VisitRun(a: App, nesting: bool, acts: seq<Action>, m: Machine, p: nat, u: Task, t: Task)
    returns (acts': seq<Action>, m': Machine)
    requires ValidApp(a) && Quiet(a, nesting, acts, m, p) && u < |a.tasks| && t < |a.tasks| && p < a.tasks[u].prio
    requires a.irq[u].Some? && a.irq[u].value in m.enabled && a.irq[t].Some?
    requires a.tasks[u].prio < a.tasks[t].prio && Reopens(a, a.tasks[u].shared, a.tasks[t].prio)
    ensures Quiet(a, nesting, acts', m', p) && m'.ctl == m.ctl && a.irq[t].value in m'.enabled
  {
    var acts1, m1 := TakeRun(a, nesting, acts, m, p, u);
    assert Top(m1.ctl) == Handler(u, Nothing);
    var k :| 0 <= k < |a.tasks[u].shared| && a.tasks[t].prio <= Ceiling(a.tasks, a.tasks[u].shared[k]) < 4;
    var acts2, m2 := ReopenRun(a, nesting, acts1, m1, a.tasks[u].prio, a.tasks[u].shared[k], t);
    Extend(a, nesting, acts2, m2, Return);
    acts', m' := acts2 + [Return], Step(a, m2, Return).value;
  }

  /** While frame `h` clears its mask, `u` overtakes it, enables `t`, which is cleared already, and returns; `h` clears
      the other words and enters. */
  lemma OvertakeRun(a: App, nesting: bool, h: Entry, r: Resource, u: Task, t: Task)
    returns (acts: seq<Action>, m: Machine)
    requires ValidApp(a) && Frame(a, h) && r in SharedBy(a.tasks, a.idleShared, h)
    requires Prio(a.tasks, h) < Ceiling(a.tasks, r) < 4
    requires u < |a.tasks| && t < |a.tasks| && Overtakes(a, Prio(a.tasks, h), u, t)
    requires a.tasks[u].prio < a.tasks[t].prio && Reopens(a, a.tasks[u].shared, a.tasks[t].prio)
    ensures Quiet(a, nesting, acts, m, Prio(a.tasks, h)) && m.ctl == BaseOf(h) + [LockOf(a, h, r, a.words)]
    ensures a.irq[t].value in m.enabled
  {
    var p, w := Prio(a.tasks, h), WordOf(a.irq[u].value);
    acts, m := HolderRun(a, nesting, h, r, w);
    acts, m := VisitRun(a, nesting, acts, m, p, u, t);
    acts, m := EnterRun(a, nesting, acts, m, p, h, r, w);
  }

  lemma TopOfLock(h: Entry, e: Entry)
    requires !h.Held? && e.Held?
    ensures Top(BaseOf(h) + [e]) == h
  {
    var ctl := BaseOf(h) + [e];
    assert Owner(ctl, |ctl| - 1) == Owner(ctl, |ctl| - 2) == |ctl| - 2;
  }

  /** `t` slips into a lock of frame `h` because it has no enable bit, or because `h` nests a lock. */
  lemma DirectRun(a: App, nesting: bool, h: Entry, r: Resource, t: Task) returns (acts: seq<Action>, m: Machine)
    requires ValidApp(a) && Frame(a, h) && r in SharedBy(a.tasks, a.idleShared, h)
    requires t < |a.tasks| && Prio(a.tasks, h) < a.tasks[t].prio <= Ceiling(a.tasks, r) < 4
    requires a.irq[t].None? || nesting
    ensures Quiet(a, nesting, acts, m, a.tasks[t].prio)
    ensures m.ctl == BaseOf(h) + [LockOf(a, h, r, a.words)] + [Handler(t, Nothing)]
    ensures a.irq[t].Some? ==> a.irq[t].value in m.enabled
  {
    var p := Prio(a.tasks, h);
    acts, m := HolderRun(a, nesting, h, r, a.words);
    if a.irq[t].Some? {
      TopOfLock(h, LockOf(a, h, r, a.words));
      acts, m := ReopenRun(a, nesting, acts, m, p, r, t);
    }
    acts, m := TakeRun(a, nesting, acts, m, p, t);
  }

  /** Some run leads frame `h` into a source-masked lock with an interrupt that slips in on top of it. */
  lemma {:induction false} SlipRun(a: App, nesting: bool, h: Entry, r: Resource, t: Task)
    returns (acts: seq<Action>, m: Machine)
    requires ValidApp(a) && Frame(a, h) && r in SharedBy(a.tasks, a.idleShared, h)
    requires Slips(a, nesting, Prio(a.tasks, h), Ceiling(a.tasks, r), t)
    ensures Quiet(a, nesting, acts, m, a.tasks[t].prio)
    ensures var b := |BaseOf(h)|;
            |m.ctl| > b + 1 && m.ctl[b] == LockOf(a, h, r, a.words) && m.ctl[|m.ctl| - 1] == Handler(t, Nothing)
    ensures a.irq[t].Some? ==> a.irq[t].value in m.enabled
    decreases a.tasks[t].prio
  {
    var p := Prio(a.tasks, h);
    if a.irq[t].None? || nesting {
      acts, m := DirectRun(a, nesting, h, r, t);
    } else {
      var u :| 0 <= u < |a.tasks| && a.tasks[u].prio < a.tasks[t].prio &&
               Reopens(a, a.tasks[u].shared, a.tasks[t].prio) &&
               (Slips(a, nesting, p, Ceiling(a.tasks, r), u) || Overtakes(a, p, u, t));
      if Overtakes(a, p, u, t) {
        acts, m := OvertakeRun(a, nesting, h, r, u, t);
        acts, m := TakeRun(a, nesting, acts, m, p, t);
      } else {
        acts, m := SlipRun(a, nesting, h, r, u);
        assert Top(m.ctl) == Handler(u, Nothing);
        var k :| 0 <= k < |a.tasks[u].shared| && a.tasks[t].prio <= Ceiling(a.tasks, a.tasks[u].shared[k]) < 4;
        acts, m := ReopenRun(a, nesting, acts, m, a.tasks[u].prio, a.tasks[u].shared[k], t);
        acts, m := TakeRun(a, nesting, acts, m, a.tasks[u].prio, t);
      }
    }
  }

  /** Whoever slips into a lock on a resource that it shares breaks exclusion. */
  lemma SlippingBreaksExclusion(a: App, nesting: bool, h: Entry, r: Resource, t: Task)
    returns (acts: seq<Action>, m: Machine)
    requires ValidApp(a) && Frame(a, h) && r in SharedBy(a.tasks, a.idleShared, h)
    requires Slips(a, nesting, Prio(a.tasks, h), Ceiling(a.tasks, r), t) && r in a.tasks[t].shared
    ensures Reachable(a, nesting, acts, m) && Violated(a, m)
  {
    acts, m := SlipRun(a, nesting, h, r, t);
    acts, m := EnterSecond(a, nesting, acts, m, |BaseOf(h)|, r, t);
  }

  /** Handler `t` on top of a lock on `r` enters `r`, too. */
  lemma EnterSecond(a: App, nesting: bool, acts: seq<Action>, m: Machine, b: nat, r: Resource, t: Task)
    returns (acts': seq<Action>, m': Machine)
    requires ValidApp(a) && t < |a.tasks| && Quiet(a, nesting, acts, m, a.tasks[t].prio) && b < |m.ctl| - 1
    requires Inside(a, m.ctl[b]) && m.ctl[b].r == r
    requires m.ctl[|m.ctl| - 1] == Handler(t, Nothing) && r in a.tasks[t].shared
    ensures Reachable(a, nesting, acts', m') && Violated(a, m')
  {
    acts', m' := HandlerEnters(a, nesting, acts, m, r, t);
    ClashOnTop(a, m.ctl, b, m'.ctl);
  }

  lemma HandlerEnters(a: App, nesting: bool, acts: seq<Action>, m: Machine, r: Resource, t: Task)
    returns (acts': seq<Action>, m': Machine)
    requires ValidApp(a) && t < |a.tasks| && Quiet(a, nesting, acts, m, a.tasks[t].prio)
    requires m.ctl[|m.ctl| - 1] == Handler(t, Nothing) && r in a.tasks[t].shared
    ensures Reachable(a, nesting, acts', m') && |m'.ctl| == |m.ctl| + 1 && m'.ctl[..|m.ctl|] == m.ctl
    ensures Inside(a, m'.ctl[|m.ctl|]) && m'.ctl[|m.ctl|].r == r
  {
    assert Top(m.ctl) == Handler(t, Nothing);
    if Entered(a, m, r).Sources? {
      acts', m' := BeginRun(a, nesting, acts, m, a.tasks[t].prio, r, a.words);
    } else {
      Extend(a, nesting, acts, m, Lock(r));
      acts', m' := acts + [Lock(r)], Step(a, m, Lock(r)).value;
    }
  }

  lemma ClashOnTop(a: App, ctl: seq<Entry>, b: nat, ctl': seq<Entry>)
    requires b < |ctl| - 1 && ctl[|ctl| - 1].Handler? && Inside(a, ctl[b])
    requires |ctl'| == |ctl| + 1 && ctl'[..|ctl|] == ctl && Inside(a, ctl'[|ctl|]) && ctl'[|ctl|].r == ctl[b].r
    ensures Clash(a, ctl', b, |ctl|)
  {
    var top := |ctl| - 1;
    assert ctl'[top] == ctl[top] && ctl'[b] == ctl[b];
    assert Owner(ctl', top + 1) == Owner(ctl', top) == top;
  }

  /** The exact condition: exclusion holds in all runs (without nesting, or with it) if and only if the application is
      sealed. */
  lemma ExclusionIff(a: App, nesting: bool)
    requires ValidApp(a)
    ensures (forall acts, m :: Reachable(a, nesting, acts, m) ==> !Violated(a, m)) <==> Sealed(a, nesting)
  {
    if Sealed(a, nesting) {
      forall acts, m | Reachable(a, nesting, acts, m) ensures !Violated(a, m) {
        forall i, j | 0 <= i < j < |m.ctl| ensures !Clash(a, m.ctl, i, j) {
          if Inside(a, m.ctl[i]) && Inside(a, m.ctl[j]) && m.ctl[i].r == m.ctl[j].r {
            MutualExclusion(a, nesting, acts, m, i, j);
          }
        }
      }
    } else if !SealedFrame(a, nesting, 0, a.idleShared) {
      var k, t :| 0 <= k < |a.idleShared| && 0 <= t < |a.tasks| && a.idleShared[k] in a.tasks[t].shared &&
                  Slips(a, nesting, 0, Ceiling(a.tasks, a.idleShared[k]), t);
      var acts, m := SlippingBreaksExclusion(a, nesting, Idle, a.idleShared[k], t);
    } else {
      var f :| 0 <= f < |a.tasks| && !SealedFrame(a, nesting, a.tasks[f].prio, a.tasks[f].shared);
      var shared := a.tasks[f].shared;
      var k, t :| 0 <= k < |shared| && 0 <= t < |a.tasks| && shared[k] in a.tasks[t].shared &&
                  Slips(a, nesting, a.tasks[f].prio, Ceiling(a.tasks, shared[k]), t);
      var acts, m := SlippingBreaksExclusion(a, nesting, Handler(f, Nothing), shared[k], t);
    }
  }

  /** A core exception slips into every source-masked lock at or above its priority, the idle task's included. */
  lemma ExceptionBreaksExclusion(a: App, nesting: bool, h: Entry, r: Resource, t: Task)
    returns (acts: seq<Action>, m: Machine)
    requires ValidApp(a) && Frame(a, h) && t < |a.tasks| && a.irq[t].None?
    requires r in SharedBy(a.tasks, a.idleShared, h) && r in a.tasks[t].shared
    requires Prio(a.tasks, h) < a.tasks[t].prio && Ceiling(a.tasks, r) < 4
    ensures Reachable(a, nesting, acts, m) && Violated(a, m)
  {
    CeilingIsMax(a.tasks, r);
    acts, m := SlippingBreaksExclusion(a, nesting, h, r, t);
  }

  /** So does a task whose interrupt a second word lets in: while the lower frame clears its mask, `u` comes and enables
      the interrupt of `t` again. */
  lemma ClearingBreaksExclusion(a: App, nesting: bool, h: Entry, r: Resource, u: Task, t: Task)
    returns (acts: seq<Action>, m: Machine)
    requires ValidApp(a) && Frame(a, h) && u < |a.tasks| && t < |a.tasks| && Overtakes(a, Prio(a.tasks, h), u, t)
    requires a.tasks[u].prio < a.tasks[t].prio && Reopens(a, a.tasks[u].shared, a.tasks[t].prio)
    requires r in SharedBy(a.tasks, a.idleShared, h) && r in a.tasks[t].shared && Ceiling(a.tasks, r) < 4
    ensures Reachable(a, nesting, acts, m) && Violated(a, m)
  {
    CeilingIsMax(a.tasks, r);
    acts, m := SlippingBreaksExclusion(a, nesting, h, r, t);
  }

  /** With masks of one word nobody overtakes. */
  lemma OneWordOpened(a: App, nesting: bool, p: nat, c: nat, t: Task)
    requires ValidApp(a) && a.words == 1 && t < |a.tasks|
    ensures Opened(a, nesting, p, c, t) <==>
            || nesting
            || exists u :: 0 <= u < |a.tasks| && a.tasks[u].prio < a.tasks[t].prio &&
                           Reopens(a, a.tasks[u].shared, a.tasks[t].prio) && Slips(a, nesting, p, c, u)
  {
    forall u | 0 <= u < |a.tasks| ensures !Overtakes(a, p, u, t) {
    }
  }

  /** A frame of priority `p` masks sources for one of the resources `shared`. */
  predicate MasksSources(a: App, p: nat, shared: seq<Resource>) {
    exists k :: 0 <= k < |shared| && p < Ceiling(a.tasks, shared[k]) < 4
  }

  lemma NestingUnseals(a: App, p: nat, shared: seq<Resource>)
    requires ValidApp(a)
    ensures SealedFrame(a, true, p, shared) <==> !MasksSources(a, p, shared)
  {
    if MasksSources(a, p, shared) {
      var k :| 0 <= k < |shared| && p < Ceiling(a.tasks, shared[k]) < 4;
      CeilingIsMax(a.tasks, shared[k]);
      var t :| 0 <= t < |a.tasks| && shared[k] in a.tasks[t].shared && a.tasks[t].prio == Ceiling(a.tasks, shared[k]);
      assert Slips(a, true, p, Ceiling(a.tasks, shared[k]), t);
    }
  }

  /** With nesting, exclusion holds if and only if no frame ever masks sources: one that does breaks it by locking the
      same resource, or any other that reaches as high, inside its own closure. */
  lemma NestedLocksBreakExclusion(a: App)
    requires ValidApp(a)
    ensures (forall acts, m :: Reachable(a, true, acts, m) ==> !Violated(a, m)) <==>
            && !MasksSources(a, 0, a.idleShared)
            && forall f :: 0 <= f < |a.tasks| ==> !MasksSources(a, a.tasks[f].prio, a.tasks[f].shared)
  {
    ExclusionIff(a, true);
    NestingUnseals(a, 0, a.idleShared);
    forall f | 0 <= f < |a.tasks|
      ensures SealedFrame(a, true, a.tasks[f].prio, a.tasks[f].shared) <==>
              !MasksSources(a, a.tasks[f].prio, a.tasks[f].shared)
    {
      NestingUnseals(a, a.tasks[f].prio, a.tasks[f].shared);
    }
  }

  // ----- The enable bits

  /** Without nesting, the mask of a lock whose closure runs has nothing in common with that of a lock above it, unless
      the frame of the upper one has slipped into the lower one. */
  lemma MasksApart(a: App, acts: seq<Action>, m: Machine, i: nat, j: nat)
    requires ValidApp(a) && Reachable(a, false, acts, m)
    requires i < j < |m.ctl| && BySources(m.ctl[i]) && Inside(a, m.ctl[i]) && BySources(m.ctl[j])
    ensures || m.ctl[i].saved.mask !! m.ctl[j].saved.mask
            || (var h := m.ctl[Owner(m.ctl, j)];
                h.Handler? && Slips(a, false, HolderPrio(a, m.ctl, i), Ceiling(a.tasks, m.ctl[i].r), h.t))
  {
    RunInv(a, false, acts, m);
    var o := OtherFrame(a, m.ctl, i, j);
    var p, c, q, d := HolderPrio(a, m.ctl, i), Ceiling(a.tasks, m.ctl[i].r), HolderPrio(a, m.ctl, j),
                      Ceiling(a.tasks, m.ctl[j].r);
    HandlerAt(a, false, m.ctl, i, o);
    LockAt(a, false, m.ctl, i);
    LockAt(a, false, m.ctl, j);
    if c < q {
      RangesApart(a, p, c, q, d);
    }
  }

  /** Without nesting, the upper one of two source-masked locks belongs to a frame that started above the lower one. */
  lemma OtherFrame(a: App, ctl: seq<Entry>, i: nat, j: nat) returns (o: nat)
    requires ValidApp(a) && Good(a, false, ctl) && i < j < |ctl| && BySources(ctl[i]) && BySources(ctl[j])
    ensures i < o < j && o == Owner(ctl, j) && ctl[o].Handler?
  {
    o := Owner(ctl, j);
    GoodAt(a, false, ctl, j);
    OwnerInPrefix(ctl, j, j - 1);
    assert i < o;
    GoodAt(a, false, ctl, o);
  }

  lemma RangesApart(a: App, p: nat, c: nat, q: nat, d: nat)
    requires ValidApp(a) && c < q
    ensures MaskOf(a, p, c) !! MaskOf(a, q, d)
  {
    forall n | n in MaskOf(a, p, c) ensures n !in MaskOf(a, q, d) {
      var s :| 0 <= s < |a.tasks| && a.irq[s] == Some(n) && p < a.tasks[s].prio <= c;
      assert forall t :: 0 <= t < |a.tasks| && a.irq[t] == Some(n) ==> t == s;
    }
  }

  /** In every run of every application, nested or not, what no lock on the stack has disabled is enabled, and outside
      of all locks every interrupt in use is. */
  lemma EnabledRestored(a: App, nesting: bool, acts: seq<Action>, m: Machine)
    requires ValidApp(a) && Reachable(a, nesting, acts, m)
    ensures AllIrqs(a) - Disabled(m.ctl) <= m.enabled <= AllIrqs(a) && m.primask == InterruptsOff(m.ctl)
    ensures m.ctl == [Idle] ==> m.enabled == AllIrqs(a) && !m.primask
  {
    RunInv(a, nesting, acts, m);
  }

  /** A task with an enable bit slips into a lock of this frame. */
  ghost predicate LeakyFrame(a: App, nesting: bool, p: nat, shared: seq<Resource>)
    requires ValidApp(a)
  {
    exists k, t :: 0 <= k < |shared| && 0 <= t < |a.tasks| && a.irq[t].Some? &&
                   Slips(a, nesting, p, Ceiling(a.tasks, shared[k]), t)
  }

  ghost predicate Leaky(a: App, nesting: bool)
    requires ValidApp(a)
  {
    || LeakyFrame(a, nesting, 0, a.idleShared)
    || exists f :: 0 <= f < |a.tasks| && LeakyFrame(a, nesting, a.tasks[f].prio, a.tasks[f].shared)
  }

  /** What the locks have cleared is off until they set it again. */
  ghost predicate InForce(m: Machine) {
    forall i :: 0 <= i < |m.ctl| && BySources(m.ctl[i]) && !m.ctl[i].saved.leaving ==> Cleared(m.ctl[i]) !! m.enabled
  }

  /** The masks of all locks are in force in every run, as far as they are cleared, if and only if no task with an
      enable bit slips into any lock. */
  lemma MasksInForceIff(a: App, nesting: bool)
    requires ValidApp(a)
    ensures (forall acts, m :: Reachable(a, nesting, acts, m) ==> InForce(m)) <==> !Leaky(a, nesting)
  {
    if !Leaky(a, nesting) {
      forall acts, m | Reachable(a, nesting, acts, m) ensures InForce(m) {
        RunInv(a, nesting, acts, m);
        forall i, n | 0 <= i < |m.ctl| && BySources(m.ctl[i]) && !m.ctl[i].saved.leaving && n in Cleared(m.ctl[i])
          ensures n !in m.enabled
        {
          MaskedStaysOff(a, nesting, m, i, n);
        }
      }
    } else if LeakyFrame(a, nesting, 0, a.idleShared) {
      LeakRun(a, nesting, Idle);
    } else {
      var f :| 0 <= f < |a.tasks| && LeakyFrame(a, nesting, a.tasks[f].prio, a.tasks[f].shared);
      LeakRun(a, nesting, Handler(f, Nothing));
    }
  }

  lemma MaskedStaysOff(a: App, nesting: bool, m: Machine, i: nat, n: nat)
    requires ValidApp(a) && Inv(a, nesting, m) && !Leaky(a, nesting) && i < |m.ctl| && BySources(m.ctl[i])
    requires !m.ctl[i].saved.leaving && n in Cleared(m.ctl[i])
    ensures n !in m.enabled
  {
    LockAt(a, nesting, m.ctl, i);
    var p, c := HolderPrio(a, m.ctl, i), Ceiling(a.tasks, m.ctl[i].r);
    var t :| 0 <= t < |a.tasks| && a.irq[t] == Some(n) && p < a.tasks[t].prio <= c;
    assert Tight(a, nesting, m.ctl, m.enabled, i, t);
    var h := m.ctl[Owner(m.ctl, i)];
    var shared := SharedBy(a.tasks, a.idleShared, h);
    var k :| 0 <= k < |shared| && shared[k] == m.ctl[i].r;
    assert !LeakyFrame(a, nesting, p, shared);
    assert !Slips(a, nesting, p, Ceiling(a.tasks, shared[k]), t);
  }

  /** While no lock is being left, masks in force mean that exactly the interrupts are off that the locks have
      cleared. */
  lemma ExactlyMaskedOff(a: App, nesting: bool, acts: seq<Action>, m: Machine)
    requires ValidApp(a) && Reachable(a, nesting, acts, m)
    requires forall i :: 0 <= i < |m.ctl| && BySources(m.ctl[i]) ==> !m.ctl[i].saved.leaving
    ensures InForce(m) <==> m.enabled == AllIrqs(a) - Disabled(m.ctl)
  {
    RunInv(a, nesting, acts, m);
    if InForce(m) {
      forall n | n in Disabled(m.ctl) ensures n !in m.enabled {
        var i := DisabledBy(m.ctl, n);
      }
    } else {
      var i :| 0 <= i < |m.ctl| && BySources(m.ctl[i]) && !m.ctl[i].saved.leaving && !(Cleared(m.ctl[i]) !! m.enabled);
      ClearedIsDisabled(m.ctl, i);
    }
  }

  lemma {:induction false} ClearedIsDisabled(ctl: seq<Entry>, i: nat)
    requires i < |ctl|
    ensures Cleared(ctl[i]) <= Disabled(ctl)
  {
    if i < |ctl| - 1 { ClearedIsDisabled(ctl[..|ctl| - 1], i); }
  }

  lemma LeakRun(a: App, nesting: bool, h: Entry)
    requires ValidApp(a) && Frame(a, h)
    requires LeakyFrame(a, nesting, Prio(a.tasks, h), SharedBy(a.tasks, a.idleShared, h))
    ensures exists acts, m :: Reachable(a, nesting, acts, m) && !InForce(m)
  {
    var p, shared := Prio(a.tasks, h), SharedBy(a.tasks, a.idleShared, h);
    var k, t :| 0 <= k < |shared| && 0 <= t < |a.tasks| && a.irq[t].Some? &&
                Slips(a, nesting, p, Ceiling(a.tasks, shared[k]), t);
    var acts, m := SlipRun(a, nesting, h, shared[k], t);
    assert a.irq[t].value in Cleared(m.ctl[|BaseOf(h)|]);
    assert !InForce(m);
  }

  /** The exit of a source-masked lock inside another one of the same frame: what the outer one disabled stays
      disabled exactly when no task on an NVIC interrupt has a priority above the frame's and up to both ceilings. */
  lemma InnerExitUnmasks(a: App, m: Machine, rest: seq<Entry>, p: nat, outer: nat, inner: nat, r: Resource)
    requires ValidApp(a) && m.enabled !! MaskOf(a, p, outer)
    requires m.ctl == rest + [Held(r, Sources(MaskOf(a, p, inner), a.words, false))]
    ensures Step(a, m, Unlock).Some? && Writes(a, Step(a, m, Unlock).value, a.words).Some?
    ensures Writes(a, Step(a, m, Unlock).value, a.words).value.enabled !! MaskOf(a, p, outer) <==>
            !exists t :: 0 <= t < |a.tasks| && a.irq[t].Some? && p < a.tasks[t].prio &&
                         a.tasks[t].prio <= outer && a.tasks[t].prio <= inner
  {
    var mask := MaskOf(a, p, inner);
    ExitSetsMask(a, m, rest, r, mask);
    var least := if inner < outer then inner else outer;
    if t :| 0 <= t < |a.tasks| && a.irq[t].Some? && p < a.tasks[t].prio <= least {
      assert a.irq[t].value in mask && a.irq[t].value in MaskOf(a, p, outer);
    } else {
      forall n | n in mask ensures n !in MaskOf(a, p, outer) {
        var s :| 0 <= s < |a.tasks| && a.irq[s] == Some(n) && p < a.tasks[s].prio <= inner;
        assert forall t :: 0 <= t < |a.tasks| && a.irq[t] == Some(n) ==> t == s;
      }
    }
  }
}
