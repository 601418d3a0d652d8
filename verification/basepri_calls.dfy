/** `lock` and `run` of the BASEPRI distribution as the calls they are: nested to any depth, with handlers preempting
    anywhere, they leave BASEPRI and PRIMASK as at entry, and let exactly those handlers in that have a priority above
    the running one and above every ceiling held. */
module BasepriCalls {
  import opened Priorities
  import opened Srp

  /** What a closure or a handler does, as far as the registers see it: it locks a resource of that ceiling around some
      code, or there is a point at which the pending interrupt of a task is considered.  One that is held back there
      is considered again at a later point, which is a node of its own: after the unlock, say. */
  datatype Code =
    | Done
    | Locked(ceiling: nat, inside: Code, after: Code)
    | Interrupt(prio: nat, handler: Code, after: Code)

  predicate InRange(code: Code, bits: nat) {
    match code
    case Done => true
    case Locked(c, inside, after) => c <= Levels(bits) && InRange(inside, bits) && InRange(after, bits)
    case Interrupt(p, handler, after) => 1 <= p <= Levels(bits) && InRange(handler, bits) && InRange(after, bits)
  }

  /** The registers that a piece of code of a frame of priority `active` sees. */
  datatype Seen = Seen(active: nat, basepri: nat, primask: bool)

  /** What all the code sees, in logical terms: `ceiling` is the system ceiling, `off` whether the top ceiling is
      held. */
  function Observed(bits: nat, code: Code, active: nat, ceiling: nat, off: bool): seq<Seen>
    requires 1 <= bits <= 7 && InRange(code, bits) && ceiling < Levels(bits)
  {
    match code
    case Done => [Seen(active, Priorities.Code(ceiling, bits), off)]
    case Locked(c, inside, after) =>
      (if c == Levels(bits) then Observed(bits, inside, active, ceiling, true)
       else Observed(bits, inside, active, if ceiling < c then c else ceiling, off))
      + Observed(bits, after, active, ceiling, off)
    case Interrupt(p, handler, after) =>
      (if !off && active < p && ceiling < p then Observed(bits, handler, p, ceiling, off) else [])
      + Observed(bits, after, active, ceiling, off)
  }

  function Max(p: nat, q: nat): nat {
    if p < q then q else p
  }

  /** Nothing below or at the system ceiling gets in: code of another frame that is seen has a priority above that of
      the running one and above every ceiling held, and none is seen with interrupts off. */
  lemma {:induction false} OnlyHigherSeen(bits: nat, code: Code, active: nat, ceiling: nat, off: bool)
    requires 1 <= bits <= 7 && InRange(code, bits) && ceiling < Levels(bits)
    ensures forall s :: s in Observed(bits, code, active, ceiling, off) ==>
                          s.active == active || (!off && active < s.active && ceiling < s.active)
    ensures forall s :: s in Observed(bits, code, active, ceiling, off) && off ==> s.primask
    ensures forall s :: s in Observed(bits, code, active, ceiling, off) ==> MasksAtLeast(bits, s.basepri, ceiling)
  {
    match code
    case Done => assert MasksAtLeast(bits, Priorities.Code(ceiling, bits), ceiling);
    case Locked(c, inside, after) =>
      if c == Levels(bits) {
        OnlyHigherSeen(bits, inside, active, ceiling, true);
      } else {
        OnlyHigherSeen(bits, inside, active, Max(ceiling, c), off);
      }
      OnlyHigherSeen(bits, after, active, ceiling, off);
    case Interrupt(p, handler, after) =>
      OnlyHigherSeen(bits, handler, p, ceiling, off);
      OnlyHigherSeen(bits, after, active, ceiling, off);
  }

  /** BASEPRI stands for a ceiling of at least `ceiling`. */
  ghost predicate MasksAtLeast(bits: nat, basepri: nat, ceiling: nat)
    requires 1 <= bits <= 7
  {
    exists c :: ceiling <= c < Levels(bits) && basepri == Priorities.Code(c, bits)
  }

  /** Inside a closure the handlers up to the ceiling are kept out, and nobody is inside one at the top level. */
  lemma ClosureKeepsOut(bits: nat, c: nat, inside: Code, active: nat, ceiling: nat, off: bool)
    requires 1 <= bits <= 7 && InRange(inside, bits) && c <= Levels(bits) && ceiling < Levels(bits)
    ensures forall s :: s in Observed(bits, Locked(c, inside, Done), active, ceiling, off) ==>
                          s.active == active || (active < s.active && ceiling < s.active && c < s.active && !off)
  {
    if c == Levels(bits) {
      OnlyHigherSeen(bits, inside, active, ceiling, true);
    } else {
      OnlyHigherSeen(bits, inside, active, Max(ceiling, c), off);
    }
  }

  /** A handler runs, and to its end, if and only if its priority is above the running one and above every ceiling held
      and interrupts are on; the code around it is not affected. */
  lemma HandlerRunsIff(bits: nat, p: nat, handler: Code, after: Code, active: nat, ceiling: nat, off: bool)
    requires 1 <= bits <= 7 && 1 <= p <= Levels(bits) && InRange(handler, bits) && InRange(after, bits)
    requires ceiling < Levels(bits)
    ensures Observed(bits, Interrupt(p, handler, after), active, ceiling, off) ==
            (if active < p && ceiling < p && !off then Observed(bits, handler, p, ceiling, off) else [])
            + Observed(bits, after, active, ceiling, off)
    ensures Observed(bits, handler, p, ceiling, off) != []
  {
    LogNotEmpty(bits, handler, p, ceiling, off);
  }

  lemma {:induction false} LogNotEmpty(bits: nat, code: Code, active: nat, ceiling: nat, off: bool)
    requires 1 <= bits <= 7 && InRange(code, bits) && ceiling < Levels(bits)
    ensures var log := Observed(bits, code, active, ceiling, off);
            log != [] && log[|log| - 1] == Seen(active, Priorities.Code(ceiling, bits), off)
  {
    match code
    case Done =>
    case Locked(_, _, after) => LogNotEmpty(bits, after, active, ceiling, off);
    case Interrupt(_, _, after) => LogNotEmpty(bits, after, active, ceiling, off);
  }

  class Cpu {
    const bits: nat
    var basepri: nat
    var primask: bool
    var log: seq<Seen>
    /** The system ceiling that BASEPRI stands for. */
    ghost var ceiling: nat

    ghost predicate Valid()
      reads this
    {
      1 <= bits <= 7 && ceiling < Levels(bits) && basepri == Priorities.Code(ceiling, bits)
    }

    constructor (bits: nat)
      requires 1 <= bits <= 7
      ensures Valid() && this.bits == bits && basepri == 0 && !primask && ceiling == 0 && log == []
    {
      this.bits, basepri, primask, ceiling, log := bits, 0, false, 0, [];
      new;
      CodeZero(bits, 0);
    }

    /** `lock`; `interrupt::free` around the closure at the top level. */
    method Lock(c: nat, active: nat, inside: Code)
      requires Valid() && c <= Levels(bits) && InRange(inside, bits) && active <= Levels(bits)
      modifies this
      ensures Valid() && basepri == old(basepri) && primask == old(primask) && ceiling == old(ceiling)
      ensures log == old(log) + if c == Levels(bits) then Observed(bits, inside, active, ceiling, true)
                                else Observed(bits, inside, active, if ceiling < c then c else ceiling, primask)
      decreases inside, 1
    {
      if c == Levels(bits) {
        var wasMasked := primask;
        primask := true;
        Execute(active, inside);
        if !wasMasked {
          primask := false;
        }
      } else {
        var current := basepri;
        ghost var before := ceiling;
        BasepriMaxIsMax(bits, ceiling, c);
        basepri := BasepriMax(basepri, Priorities.Code(c, bits));
        ceiling := if ceiling < c then c else ceiling;
        Execute(active, inside);
        basepri := current;
        ceiling := before;
      }
    }

    /** `run` around the handler of a task.  For priority 1 it writes 0 instead of what it has not read. */
    method Run(priority: nat, handler: Code)
      requires Valid() && 1 <= priority <= Levels(bits) && InRange(handler, bits)
      requires !Masked(basepri, Priorities.Code(priority, bits))
      modifies this
      ensures Valid() && basepri == old(basepri) && primask == old(primask) && ceiling == old(ceiling)
      ensures log == old(log) + Observed(bits, handler, priority, ceiling, primask)
      decreases handler, 1
    {
      if priority == 1 {
        BasepriMasksUpToCeiling(bits, ceiling, 1);
        CodeZero(bits, 0);
        Execute(priority, handler);
        basepri := 0;
      } else {
        var initial := basepri;
        Execute(priority, handler);
        basepri := initial;
      }
    }

    /** Code of a frame of priority `active`; an interrupt is taken when its priority value is below the execution
        priority, and otherwise stays pending until a later point of the code at which it is considered. */
    method Execute(active: nat, code: Code)
      requires Valid() && InRange(code, bits) && active <= Levels(bits)
      modifies this
      ensures Valid() && basepri == old(basepri) && primask == old(primask) && ceiling == old(ceiling)
      ensures log == old(log) + Observed(bits, code, active, ceiling, primask)
      decreases code, 0
    {
      match code {
        case Done =>
          log := log + [Seen(active, basepri, primask)];
        case Locked(c, inside, after) =>
          Lock(c, active, inside);
          Execute(active, after);
        case Interrupt(p, handler, after) =>
          BasepriMasksUpToCeiling(bits, ceiling, p);
          if !primask && active < p && !Masked(basepri, Priorities.Code(p, bits)) {
            Run(p, handler);
          }
          Execute(active, after);
      }
    }
  }
}
