/** Interrupt masks of the armv6-m distribution: the table built at compile time and `compute_mask`. */
module SourceMasks {
  import opened Wrappers

  /** A u32 as its bits, least significant first; a `Mask` is M of them. */
  type Word = w: seq<bool> | |w| == 32 witness seq(32, _ => false)
  type Mask = seq<Word>

  const ZERO: Word := seq(32, _ => false)

  /** Interrupt number `i` is set in the mask. */
  predicate Has(m: Mask, i: nat) {
    i / 32 < |m| && m[i / 32][i % 32]
  }

  lemma SameBit(i: nat, j: nat)
    ensures i / 32 == j / 32 && i % 32 == j % 32 <==> i == j
  {
  }

  /** `None` is the panic at compile time. */
  method SetBit(mask: Mask, bit: nat) returns (r: Option<Mask>)
    ensures r.Some? <==> bit / 32 < |mask|
    ensures r.Some? ==> |r.value| == |mask| && forall i :: Has(r.value, i) <==> Has(mask, i) || i == bit
  {
    var block := bit / 32;
    if block >= |mask| {
      return None;
    }
    var offset := bit - block * 32;
    var word: Word := mask[block][offset := true];
    r := Some(mask[block := word]);
    forall i ensures Has(r.value, i) <==> Has(mask, i) || i == bit {
      SameBit(i, bit);
    }
  }

  method CreateMask(shifts: seq<nat>, chunks: nat) returns (r: Option<Mask>)
    ensures r.Some? <==> forall s :: s in shifts ==> s / 32 < chunks
    ensures r.Some? ==> |r.value| == chunks && forall i :: Has(r.value, i) <==> i in shifts
  {
    var mask: Mask := seq(chunks, _ => ZERO);
    var i := 0;
    while i < |shifts|
      invariant i <= |shifts| && |mask| == chunks
      invariant forall s :: s in shifts[..i] ==> s / 32 < chunks
      invariant forall b :: Has(mask, b) <==> b in shifts[..i]
    {
      var shift := shifts[i];
      i := i + 1;
      assert shift in shifts;
      var next := SetBit(mask, shift);
      if next.None? {
        return None;
      }
      mask := next.value;
      assert shifts[..i] == shifts[..i - 1] + [shift];
    }
    assert shifts[..|shifts|] == shifts;
    return Some(mask);
  }

  /** The least number of words, but at least one, in which every interrupt number has its bit. */
  method ComputeMaskChunks(ids: seq<nat>) returns (chunks: nat)
    ensures chunks >= 1 && forall id :: id in ids ==> id / 32 < chunks
    ensures chunks == 1 || exists id :: id in ids && id / 32 == chunks - 1
  {
    var max := 0;
    var i := 0;
    while i < |ids|
      invariant i <= |ids|
      invariant forall k :: 0 <= k < i ==> ids[k] <= max
      invariant max == 0 || max in ids
    {
      var id := ids[i];
      i := i + 1;
      if id > max {
        max := id;
      }
    }
    return (max + 32) / 32;
  }

  /** `|=` on masks. */
  method OrAssign(lhs: Mask, rhs: Mask) returns (r: Mask)
    requires |lhs| == |rhs|
    ensures |r| == |lhs| && forall i :: Has(r, i) <==> Has(lhs, i) || Has(rhs, i)
  {
    r := lhs;
    for i := 0 to |lhs|
      invariant |r| == |lhs|
      invariant forall k :: i <= k < |lhs| ==> r[k] == lhs[k]
      invariant forall k, b :: 0 <= k < i && 0 <= b < 32 ==> r[k][b] == (lhs[k][b] || rhs[k][b])
    {
      var word: Word := seq(32, b requires 0 <= b < 32 => r[i][b] || rhs[i][b]);
      r := r[i := word];
    }
  }

  /** `compute_mask(from, to)`; slicing the table of three needs `from <= to <= 3`. */
  method ComputeMask(from: nat, to: nat, masks: seq<Mask>, chunks: nat) returns (res: Mask)
    requires |masks| == 3 && from <= to <= 3 && forall m :: m in masks ==> |m| == chunks
    ensures |res| == chunks
    ensures forall i :: Has(res, i) <==> exists level :: from <= level < to && Has(masks[level], i)
  {
    res := seq(chunks, _ => ZERO);
    for level := from to to
      invariant |res| == chunks
      invariant forall i :: Has(res, i) <==> exists l :: from <= l < level && Has(masks[l], i)
    {
      res := OrAssign(res, masks[level]);
    }
  }

  /** A hardware task or dispatcher: its interrupt number, or `None` for a core exception, and its priority. */
  datatype Bound = Bound(irq: Option<nat>, prio: nat)

  /** Some task bound to interrupt `n` has a priority in `from < prio <= to`. */
  ghost predicate Between(tasks: seq<Bound>, n: nat, from: nat, to: nat) {
    exists t :: t in tasks && t.irq == Some(n) && from < t.prio <= to
  }

  /** The table's level counts from 0, priorities from 1. */
  ghost predicate AtLevel(tasks: seq<Bound>, n: nat, level: nat) {
    exists t :: t in tasks && t.irq == Some(n) && t.prio == level + 1
  }

  lemma AtLevelPush(tasks: seq<Bound>, t: Bound, n: nat, level: nat)
    ensures AtLevel(tasks + [t], n, level) <==> AtLevel(tasks, n, level) || (t.irq == Some(n) && t.prio == level + 1)
  {
    assert forall u :: u in tasks + [t] <==> u in tasks || u == t;
  }

  function Numbers(tasks: seq<Bound>): seq<nat> {
    if tasks == [] then []
    else
      var front, last := tasks[..|tasks| - 1], tasks[|tasks| - 1];
      if last.irq.Some? then Numbers(front) + [last.irq.value] else Numbers(front)
  }

  lemma {:induction false} NumbersOf(tasks: seq<Bound>, n: nat)
    ensures n in Numbers(tasks) <==> exists t :: t in tasks && t.irq == Some(n)
  {
    if tasks != [] {
      NumbersOf(tasks[..|tasks| - 1], n);
      assert tasks == tasks[..|tasks| - 1] + [tasks[|tasks| - 1]];
    }
  }

  /** `generate_source_mask_globals`: one mask per priority level 1 to 3, sized for all NVIC interrupts in use.  The
      table can always be built. */
  method GenerateGlobals(tasks: seq<Bound>) returns (chunks: nat, masks: seq<Mask>)
    ensures |masks| == 3 && forall m :: m in masks ==> |m| == chunks
    ensures forall level, n: nat :: 0 <= level < 3 ==> (Has(masks[level], n) <==> AtLevel(tasks, n, level))
  {
    var byLevel: seq<seq<nat>> := [[], [], []];
    for i := 0 to |tasks|
      invariant |byLevel| == 3
      invariant forall level, n: nat ::
                  0 <= level < 3 ==> (n in byLevel[level] <==> AtLevel(tasks[..i], n, level))
    {
      var task := tasks[i];
      assert tasks[..i + 1] == tasks[..i] + [task];
      forall level, n: nat | 0 <= level < 3
        ensures AtLevel(tasks[..i + 1], n, level) <==>
                AtLevel(tasks[..i], n, level) || (task.irq == Some(n) && task.prio == level + 1)
      {
        AtLevelPush(tasks[..i], task, n, level);
      }
      if task.irq.Some? && 1 <= task.prio <= 3 {
        byLevel := byLevel[task.prio - 1 := byLevel[task.prio - 1] + [task.irq.value]];
      }
    }
    assert tasks[..|tasks|] == tasks;
    chunks := ComputeMaskChunks(Numbers(tasks));
    masks := [];
    for level := 0 to 3
      invariant |masks| == level && forall m :: m in masks ==> |m| == chunks
      invariant forall l, n: nat :: 0 <= l < level ==> (Has(masks[l], n) <==> n in byLevel[l])
    {
      forall s | s in byLevel[level] ensures s / 32 < chunks {
        NumbersOf(tasks, s);
      }
      var mask := CreateMask(byLevel[level], chunks);
      masks := masks + [mask.value];
    }
  }

  /** The mask of `lock` has exactly the NVIC interrupts of the tasks that `current < priority <= ceiling`. */
  method LockMask(tasks: seq<Bound>, current: nat, ceiling: nat) returns (mask: Mask)
    requires current < ceiling < 4
    ensures forall n: nat :: Has(mask, n) <==> Between(tasks, n, current, ceiling)
  {
    var chunks, masks := GenerateGlobals(tasks);
    mask := ComputeMask(current, ceiling, masks, chunks);
    forall n: nat ensures Has(mask, n) <==> Between(tasks, n, current, ceiling) {
      if Between(tasks, n, current, ceiling) {
        var t :| t in tasks && t.irq == Some(n) && current < t.prio <= ceiling;
        assert AtLevel(tasks, n, t.prio - 1) && Has(masks[t.prio - 1], n);
      }
    }
  }

  /** The enable bits of the NVIC: a 1 written to ISER sets the bit, a 1 written to ICER clears it, a 0 does nothing
      (Armv6-M Architecture Reference Manual, DDI 0419, B3.4). */
  class Nvic {
    const enabled: array<Word>

    constructor (words: nat)
      ensures enabled.Length == words && fresh(enabled) && forall i: nat :: !Enabled(i)
    {
      enabled := new Word[words](_ => ZERO);
    }

    ghost predicate Enabled(i: nat)
      reads enabled
    {
      Has(enabled[..], i)
    }

    method WriteIser(i: nat, bits: Word)
      requires i < enabled.Length
      modifies enabled
      ensures forall k :: 0 <= k < enabled.Length && k != i ==> enabled[k] == old(enabled[k])
      ensures forall b :: 0 <= b < 32 ==> enabled[i][b] == (old(enabled[i][b]) || bits[b])
    {
      var word := enabled[i];
      var next: Word := seq(32, b requires 0 <= b < 32 => word[b] || bits[b]);
      enabled[i] := next;
    }

    method WriteIcer(i: nat, bits: Word)
      requires i < enabled.Length
      modifies enabled
      ensures forall k :: 0 <= k < enabled.Length && k != i ==> enabled[k] == old(enabled[k])
      ensures forall b :: 0 <= b < 32 ==> enabled[i][b] == (old(enabled[i][b]) && !bits[b])
    {
      var word := enabled[i];
      var next: Word := seq(32, b requires 0 <= b < 32 => word[b] && !bits[b]);
      enabled[i] := next;
    }

    /** `set_enable_mask`: exactly the interrupts of the mask are enabled besides. */
    method SetEnableMask(mask: Mask)
      requires |mask| <= enabled.Length
      modifies enabled
      ensures forall i: nat :: Enabled(i) <==> old(Enabled(i)) || Has(mask, i)
    {
      for i := 0 to |mask|
        invariant forall k :: i <= k < enabled.Length ==> enabled[k] == old(enabled[k])
        invariant forall k, b :: 0 <= k < i && 0 <= b < 32 ==> enabled[k][b] == (old(enabled[k][b]) || mask[k][b])
      {
        if mask[i] != ZERO {
          WriteIser(i, mask[i]);
        }
      }
    }

    /** `clear_enable_mask`: exactly the interrupts of the mask are disabled. */
    method ClearEnableMask(mask: Mask)
      requires |mask| <= enabled.Length
      modifies enabled
      ensures forall i: nat :: Enabled(i) <==> old(Enabled(i)) && !Has(mask, i)
    {
      for i := 0 to |mask|
        invariant forall k :: i <= k < enabled.Length ==> enabled[k] == old(enabled[k])
        invariant forall k, b :: 0 <= k < i && 0 <= b < 32 ==> enabled[k][b] == (old(enabled[k][b]) && !mask[k][b])
      {
        if mask[i] != ZERO {
          WriteIcer(i, mask[i]);
        }
      }
    }
  }
}
