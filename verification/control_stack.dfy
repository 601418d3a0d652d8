/** The control stack of a preemptive core, which both kinds of locking share: handlers and the calls of `lock` inside
    them, innermost last; `Held` is a call of `lock`. */
module ControlStack {
  import opened Ceilings

  type Task = nat

  /** What the code of an entry restores from when it is left: nothing, BASEPRI, PRIMASK or the interrupt sources that
      it masks.  These are written one word after another: `word` is the next one, of those to clear before the
      closure, or, once it is `leaving`, of those to set after it. */
  datatype Saved =
    | Nothing
    | Basepri(value: nat)
    | Primask(wasMasked: bool)
    | Sources(mask: set<nat>, word: nat, leaving: bool)

  datatype Entry = Idle | Handler(t: Task, saved: Saved) | Held(r: Resource, saved: Saved)

  predicate ByBasepri(e: Entry) { e.Held? && e.saved.Basepri? }

  predicate ByPrimask(e: Entry) { e.Held? && e.saved.Primask? }

  predicate BySources(e: Entry) { e.Held? && e.saved.Sources? }

  /** Index of the innermost handler (or idle) at or below position `i`. */
  function Owner(ctl: seq<Entry>, i: nat): (o: nat)
    requires i < |ctl|
    ensures o <= i && (forall k :: o < k <= i ==> ctl[k].Held?)
    ensures o == 0 || !ctl[o].Held?
  {
    if !ctl[i].Held? || i == 0 then i else Owner(ctl, i - 1)
  }

  function Prio(tasks: seq<TaskDecl>, e: Entry): nat {
    if e.Handler? && e.t < |tasks| then tasks[e.t].prio else 0
  }

  /** The logical priority an entry contributes: the handler's own or the ceiling of the locked resource. */
  function Level(tasks: seq<TaskDecl>, e: Entry): nat {
    if e.Held? then Ceiling(tasks, e.r) else Prio(tasks, e)
  }

  /** The resources of a frame; the idle task has its own list. */
  function SharedBy(tasks: seq<TaskDecl>, idleShared: seq<Resource>, e: Entry): seq<Resource> {
    match e
    case Handler(t, _) => if t < |tasks| then tasks[t].shared else []
    case Idle => idleShared
    case Held(_, _) => []
  }

  /** The frame that runs on top of `rest` declares `r`. */
  ghost predicate Declares(tasks: seq<TaskDecl>, idleShared: seq<Resource>, rest: seq<Entry>, r: Resource)
    requires rest != []
  {
    r in SharedBy(tasks, idleShared, rest[Owner(rest, |rest| - 1)])
  }

  function InterruptsOff(ctl: seq<Entry>): bool {
    ctl != [] && (InterruptsOff(ctl[..|ctl| - 1]) || ByPrimask(ctl[|ctl| - 1]))
  }

  lemma {:induction false} InterruptsOffIffLocked(ctl: seq<Entry>)
    ensures InterruptsOff(ctl) <==> exists i :: 0 <= i < |ctl| && ByPrimask(ctl[i])
  {
    if ctl != [] {
      var top := |ctl| - 1;
      InterruptsOffIffLocked(ctl[..top]);
      assert forall i :: 0 <= i < top ==> ctl[..top][i] == ctl[i];
      if exists i :: 0 <= i < |ctl| && ByPrimask(ctl[i]) {
        var i :| 0 <= i < |ctl| && ByPrimask(ctl[i]);
        if i < top { assert ByPrimask(ctl[..top][i]); }
      }
    }
  }

  lemma {:induction false} OwnerInPrefix(ctl: seq<Entry>, n: nat, i: nat)
    requires i < n <= |ctl|
    ensures Owner(ctl[..n], i) == Owner(ctl, i) && ctl[..n][Owner(ctl, i)] == ctl[Owner(ctl, i)]
  {
    if i > 0 { OwnerInPrefix(ctl, n, i - 1); }
  }

  lemma {:induction false} OwnerBelow(ctl: seq<Entry>, i: nat, j: nat)
    requires i <= j < |ctl| && Owner(ctl, j) <= i
    ensures Owner(ctl, i) == Owner(ctl, j)
    decreases j
  {
    if i < j && ctl[j].Held? { OwnerBelow(ctl, i, j - 1); }
  }

  lemma SharerBelowCeiling(tasks: seq<TaskDecl>, idleShared: seq<Resource>, e: Entry, r: Resource)
    requires r in SharedBy(tasks, idleShared, e)
    ensures Prio(tasks, e) <= Ceiling(tasks, r)
  {
    CeilingIsMax(tasks, r);
  }

  lemma HolderShares(tasks: seq<TaskDecl>, idleShared: seq<Resource>, ctl: seq<Entry>, j: nat)
    requires 1 <= j < |ctl| && ctl[j].Held? && Declares(tasks, idleShared, ctl[..j], ctl[j].r)
    ensures ctl[j].r in SharedBy(tasks, idleShared, ctl[Owner(ctl, j)])
    ensures Prio(tasks, ctl[Owner(ctl, j)]) <= Ceiling(tasks, ctl[j].r)
  {
    OwnerInPrefix(ctl, j, j - 1);
    SharerBelowCeiling(tasks, idleShared, ctl[Owner(ctl, j)], ctl[j].r);
  }
}
