/** Resource ceilings, as the core pass computes them (`rticx-core/src/analysis/mod.rs`). */
module Ceilings {
  import opened Wrappers

  type Resource = nat

  /** A task bound to an interrupt: its priority and its `shared = [...]` list. */
  datatype TaskDecl = TaskDecl(prio: nat, shared: seq<Resource>)

  /** The highest priority among the tasks that share `r`; 0 if none does.  The idle task does not count. */
  function Ceiling(tasks: seq<TaskDecl>, r: Resource): nat {
    if tasks == [] then 0
    else
      var last := tasks[|tasks| - 1];
      var rest := Ceiling(tasks[..|tasks| - 1], r);
      if r in last.shared && rest < last.prio then last.prio else rest
  }

  /** It is an upper bound for the sharers and is attained by one of them. */
  lemma {:induction false} CeilingIsMax(tasks: seq<TaskDecl>, r: Resource)
    ensures forall t :: 0 <= t < |tasks| && r in tasks[t].shared ==> tasks[t].prio <= Ceiling(tasks, r)
    ensures Ceiling(tasks, r) != 0 ==>
              exists t :: 0 <= t < |tasks| && r in tasks[t].shared && tasks[t].prio == Ceiling(tasks, r)
  {
    if tasks != [] {
      var front := tasks[..|tasks| - 1];
      CeilingIsMax(front, r);
      if Ceiling(front, r) != 0 {
        var t :| 0 <= t < |front| && r in front[t].shared && front[t].prio == Ceiling(front, r);
        assert tasks[t] == front[t];
      }
      forall t | 0 <= t < |tasks| && r in tasks[t].shared ensures tasks[t].prio <= Ceiling(tasks, r) {
        if t < |front| { assert tasks[t] == front[t]; }
      }
    }
  }

  /** A field of the `#[shared]` struct; `priority` starts at 0. */
  class SharedElement {
    const ident: Resource
    var priority: nat

    constructor (ident: Resource)
      ensures this.ident == ident && priority == 0
    {
      this.ident, this.priority := ident, 0;
    }
  }

  /** `SharedResources::get_field_mut`: the first field of that name. */
  method GetFieldMut(resources: seq<SharedElement>, ident: Resource) returns (r: Option<SharedElement>)
    ensures r.Some? ==> r.value in resources && r.value.ident == ident
    ensures r.None? ==> forall e :: e in resources ==> e.ident != ident
  {
    for i := 0 to |resources|
      invariant forall j :: 0 <= j < i ==> resources[j].ident != ident
    {
      if resources[i].ident == ident {
        return Some(resources[i]);
      }
    }
    return None;
  }

  /** The part of `Ceiling` that `n` entries of the last task's list contribute. */
  function Raised(was: nat, r: Resource, prio: nat, idents: seq<Resource>): nat {
    if r in idents && was < prio then prio else was
  }

  /** `update_resource_priorities`: every field ends at its ceiling, or some task names an unknown resource. */
  method UpdateResourcePriorities(resources: seq<SharedElement>, tasks: seq<TaskDecl>)
    returns (unknown: Option<Resource>)
    requires forall e :: e in resources ==> e.priority == 0
    // the fields of a struct have different names
    requires forall e, f :: e in resources && f in resources && e.ident == f.ident ==> e == f
    modifies resources
    ensures unknown == None ==> forall e :: e in resources ==> e.priority == Ceiling(tasks, e.ident)
    ensures unknown == None ==>
              forall t, r :: 0 <= t < |tasks| && r in tasks[t].shared ==> exists e :: e in resources && e.ident == r
    ensures unknown.Some? ==> exists t :: 0 <= t < |tasks| && unknown.value in tasks[t].shared
    ensures unknown.Some? ==> forall e :: e in resources ==> e.ident != unknown.value
  {
    for t := 0 to |tasks|
      invariant forall e :: e in resources ==> e.priority == Ceiling(tasks[..t], e.ident)
      invariant forall u, r :: 0 <= u < t && r in tasks[u].shared ==> exists e :: e in resources && e.ident == r
    {
      var task := tasks[t];
      for i := 0 to |task.shared|
        invariant forall e :: e in resources ==>
                                e.priority == Raised(Ceiling(tasks[..t], e.ident), e.ident, task.prio, task.shared[..i])
        invariant forall r :: r in task.shared[..i] ==> exists e :: e in resources && e.ident == r
      {
        var element := GetFieldMut(resources, task.shared[i]);
        assert task.shared[..i + 1] == task.shared[..i] + [task.shared[i]];
        if element == None {
          return Some(task.shared[i]);
        }
        if element.value.priority < task.prio {
          element.value.priority := task.prio;
        }
      }
      assert task.shared[..|task.shared|] == task.shared;
      assert tasks[..t + 1][..t] == tasks[..t] && tasks[..t + 1][t] == task;
    }
    assert tasks[..|tasks|] == tasks;
    return None;
  }
}
