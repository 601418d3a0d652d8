/** The static analysis behind the dispatchers: priority groups, their checks and the assignment of dispatchers. */
module Analysis {
  import opened Wrappers

  /** `u16`; the maps are ordered by it. */
  const PRIORITIES := 0x1_0000
  type Priority = p: nat | p < PRIORITIES
  type Core = nat
  type Path = nat

  datatype TaskDecl = TaskDecl(name: nat, prio: Priority, spawnBy: Core, capacity: nat)

  /** A member of a priority group: the task, the core that may spawn it, the capacity of its input queue. */
  datatype Member = Member(name: nat, core: Core, capacity: nat)
  type Groups = map<Priority, seq<Member>>

  /** `local` is the own core of the tasks, `None` for multi-core tasks, which name their spawning core. */
  function MemberOf(t: TaskDecl, local: Option<Core>): Member {
    Member(t.name, if local.Some? then local.value else t.spawnBy, t.capacity)
  }

  /** The members of priority `p`, in declaration order. */
  function GroupOf(tasks: seq<TaskDecl>, local: Option<Core>, p: Priority): seq<Member> {
    if tasks == [] then []
    else
      var rest, last := GroupOf(tasks[..|tasks| - 1], local, p), tasks[|tasks| - 1];
      if last.prio == p then rest + [MemberOf(last, local)] else rest
  }

  /** What the grouping loop has built after `tasks`, leaving out priority 0 if `skip0`. */
  ghost predicate Grouped(groups: Groups, tasks: seq<TaskDecl>, local: Option<Core>, skip0: bool) {
    forall p: Priority ::
      if p in groups then groups[p] == GroupOf(tasks, local, p) != [] && !(skip0 && p == 0)
      else GroupOf(tasks, local, p) == [] || (skip0 && p == 0)
  }

  method AddToGroup(groups: Groups, t: TaskDecl, local: Option<Core>, ghost before: seq<TaskDecl>, ghost skip0: bool)
    returns (r: Groups)
    requires Grouped(groups, before, local, skip0) && !(skip0 && t.prio == 0)
    ensures Grouped(r, before + [t], local, skip0)
  {
    r := groups[t.prio := (if t.prio in groups then groups[t.prio] else []) + [MemberOf(t, local)]];
    assert (before + [t])[..|before|] == before;
  }

  /** `group_by_priority`. */
  method GroupByPriority(tasks: seq<TaskDecl>, local: Option<Core>) returns (groups: Groups)
    ensures Grouped(groups, tasks, local, false)
    ensures forall p: Priority :: p in groups <==> Uses(tasks, p)
    ensures forall p :: p in groups ==> Lists(groups[p], Selected(tasks, p), local)
  {
    groups := map[];
    for i := 0 to |tasks|
      invariant Grouped(groups, tasks[..i], local, false)
    {
      groups := AddToGroup(groups, tasks[i], local, tasks[..i], false);
      assert tasks[..i + 1] == tasks[..i] + [tasks[i]];
    }
    assert tasks[..|tasks|] == tasks;
    forall p: Priority
      ensures p in groups <==> Uses(tasks, p)
      ensures p in groups ==> Lists(groups[p], Selected(tasks, p), local)
    {
      UsesIff(tasks, local, p);
      GroupLists(tasks, local, p);
    }
  }

  /** `check_disjoint_priorities`: the first priority that both maps have. */
  method CheckDisjointPriorities(sw: Groups, mc: Groups) returns (overlap: Option<Priority>)
    ensures overlap.None? <==> forall p :: p in mc ==> p !in sw
    ensures overlap.Some? ==> overlap.value in sw && overlap.value in mc
    ensures overlap.Some? ==> forall q :: q in mc && q < overlap.value ==> q !in sw
  {
    for p := 0 to PRIORITIES
      invariant forall q :: q in mc && q < p ==> q !in sw
    {
      if p in mc && p in sw {
        return Some(p);
      }
    }
    return None;
  }

  ghost predicate Uniform(group: seq<Member>) {
    forall i, j :: 0 <= i < |group| && 0 <= j < |group| ==> group[i].core == group[j].core
  }

  /** `check_uniform_spawn_by`: the first priority whose members name different spawning cores. */
  method CheckUniformSpawnBy(mc: Groups) returns (mixed: Option<Priority>)
    ensures mixed.None? <==> forall p :: p in mc ==> Uniform(mc[p])
    ensures mixed.Some? ==> mixed.value in mc && !Uniform(mc[mixed.value])
    ensures mixed.Some? ==> forall q :: q in mc && q < mixed.value ==> Uniform(mc[q])
  {
    for p := 0 to PRIORITIES
      invariant forall q :: q in mc && q < p ==> Uniform(mc[q])
    {
      if p in mc && mc[p] != [] {
        for i := 0 to |mc[p]|
          invariant forall k :: 0 <= k < i ==> mc[p][k].core == mc[p][0].core
        {
          if mc[p][0].core != mc[p][i].core {
            return Some(p);
          }
        }
      }
    }
    return None;
  }

  /** The position of `p` among the priorities in ascending order. */
  ghost function Rank(keys: set<Priority>, p: nat): nat {
    |set q | q in keys && q < p|
  }

  lemma RankNext(keys: set<Priority>, p: nat)
    ensures Rank(keys, p + 1) == Rank(keys, p) + if p in keys then 1 else 0
  {
    var below := set q | q in keys && q < p;
    if p in keys {
      assert (set q | q in keys && q < p + 1) == below + {p as Priority};
    } else {
      assert (set q | q in keys && q < p + 1) == below;
    }
  }

  /** Positions are distinct, ascend with the priority and are all below the number of groups. */
  lemma RankOrder(keys: set<Priority>, p: Priority, q: Priority)
    requires p in keys && q in keys
    ensures p < q <==> Rank(keys, p) < Rank(keys, q)
    ensures Rank(keys, p) < |keys|
  {
    var belowP, belowQ := set x | x in keys && x < p, set x | x in keys && x < q;
    SubsetSize(belowP, keys - {p});
    if p < q {
      SubsetSize(belowP, belowQ - {p});
    } else {
      SubsetSize(belowQ, belowP);
    }
  }

  datatype Result<T, E> = Ok(value: T) | Err(error: E)

  datatype Error =
    | Overlap(p: Priority)
    | DifferentSpawners(p: Priority)
    | TooFewDispatchers(expected: nat, found: nat)
    | CrossCorePriority0(name: nat)

  /** `assign_dispatchers`: the priorities in ascending order take the dispatchers in declaration order. */
  method AssignDispatchers(groups: Groups, dispatchers: seq<Path>) returns (r: Result<map<Priority, Path>, Error>)
    ensures r.Ok? <==> |groups| <= |dispatchers|
    ensures r.Err? ==> r.error == TooFewDispatchers(|groups|, |dispatchers|)
    ensures r.Ok? ==> r.value.Keys == groups.Keys &&
                      forall p :: p in groups ==>
                                    && Rank(groups.Keys, p) < |dispatchers|
                                    && r.value[p] == dispatchers[Rank(groups.Keys, p)]
  {
    if |dispatchers| < |groups| {
      return Err(TooFewDispatchers(|groups|, |dispatchers|));
    }
    var paths: map<Priority, Path> := map[];
    var next := 0;
    assert (set q | q in groups.Keys && q < 0) == {};
    for p := 0 to PRIORITIES
      invariant next == Rank(groups.Keys, p)
      invariant forall q :: q in paths <==> q in groups && q < p
      invariant forall q :: q in paths ==> Rank(groups.Keys, q) < |dispatchers|
      invariant forall q :: q in paths ==> paths[q] == dispatchers[Rank(groups.Keys, q)]
    {
      RankNext(groups.Keys, p);
      if p in groups {
        RankOrder(groups.Keys, p, p);
        paths := paths[p := dispatchers[next]];
        next := next + 1;
      }
    }
    assert paths.Keys == groups.Keys;
    return Ok(paths);
  }

  // ----- The groups in terms of the declarations

  /** The declarations of priority `p`. */
  function Selected(tasks: seq<TaskDecl>, p: Priority): seq<TaskDecl> {
    if tasks == [] then []
    else
      var rest, last := Selected(tasks[..|tasks| - 1], p), tasks[|tasks| - 1];
      if last.prio == p then rest + [last] else rest
  }

  /** They are all of them, in declaration order: each stands after as many as were declared before it. */
  lemma {:induction false} SelectedInOrder(tasks: seq<TaskDecl>, p: Priority, i: nat)
    requires i < |tasks|
    ensures tasks[i].prio == p ==>
              var k := |Selected(tasks[..i], p)|; k < |Selected(tasks, p)| && Selected(tasks, p)[k] == tasks[i]
    ensures forall t :: t in Selected(tasks, p) ==> t in tasks && t.prio == p
  {
    var rest := tasks[..|tasks| - 1];
    if i < |rest| {
      SelectedInOrder(rest, p, i);
      assert rest[..i] == tasks[..i];
    } else if rest != [] {
      SelectedInOrder(rest, p, 0);
    }
  }

  lemma SelectedIff(tasks: seq<TaskDecl>, p: Priority, t: TaskDecl)
    ensures t in Selected(tasks, p) <==> t in tasks && t.prio == p
  {
    if t in tasks {
      var i :| 0 <= i < |tasks| && tasks[i] == t;
      SelectedInOrder(tasks, p, i);
    } else if tasks != [] {
      SelectedInOrder(tasks, p, 0);
    }
  }

  /** The group lists the declarations `ts`: the names, the capacities, and the own core or the core named. */
  ghost predicate Lists(group: seq<Member>, ts: seq<TaskDecl>, local: Option<Core>) {
    && |group| == |ts|
    && forall k :: 0 <= k < |ts| ==>
                     && group[k].name == ts[k].name && group[k].capacity == ts[k].capacity
                     && group[k].core == match local
                                         case Some(core) => core
                                         case None => ts[k].spawnBy
  }

  lemma {:induction false} GroupLists(tasks: seq<TaskDecl>, local: Option<Core>, p: Priority)
    ensures Lists(GroupOf(tasks, local, p), Selected(tasks, p), local)
  {
    if tasks != [] { GroupLists(tasks[..|tasks| - 1], local, p); }
  }

  ghost predicate Uses(tasks: seq<TaskDecl>, p: Priority) {
    exists t :: t in tasks && t.prio == p
  }

  lemma UsesIff(tasks: seq<TaskDecl>, local: Option<Core>, p: Priority)
    ensures Uses(tasks, p) <==> GroupOf(tasks, local, p) != []
  {
    GroupLists(tasks, local, p);
    var ts := Selected(tasks, p);
    if ts != [] {
      assert ts[0] in ts;
      SelectedIff(tasks, p, ts[0]);
    }
    if Uses(tasks, p) {
      var t :| t in tasks && t.prio == p;
      SelectedIff(tasks, p, t);
    }
  }

  /** Two of the declarations of priority `p` name different spawning cores. */
  ghost predicate Mixed(tasks: seq<TaskDecl>, p: Priority) {
    exists s, t :: s in tasks && t in tasks && s.prio == t.prio == p && s.spawnBy != t.spawnBy
  }

  lemma MixedIff(tasks: seq<TaskDecl>, p: Priority)
    ensures Mixed(tasks, p) <==> !Uniform(GroupOf(tasks, None, p))
  {
    var ts, group := Selected(tasks, p), GroupOf(tasks, None, p);
    GroupLists(tasks, None, p);
    if Mixed(tasks, p) {
      var s, t :| s in tasks && t in tasks && s.prio == t.prio == p && s.spawnBy != t.spawnBy;
      SelectedIff(tasks, p, s);
      SelectedIff(tasks, p, t);
      var i :| 0 <= i < |ts| && ts[i] == s;
      var j :| 0 <= j < |ts| && ts[j] == t;
      assert group[i].core != group[j].core;
    }
    if !Uniform(group) {
      var i, j :| 0 <= i < |group| && 0 <= j < |group| && group[i].core != group[j].core;
      SelectedIff(tasks, p, ts[i]);
      SelectedIff(tasks, p, ts[j]);
      assert ts[i] in ts && ts[j] in ts;
    }
  }

  // ----- The whole analysis of one core

  datatype SubApp = SubApp(core: Core, swTasks: seq<TaskDecl>, mcTasks: seq<TaskDecl>, dispatchers: seq<Path>)

  /** `prio0` are the tasks of the idle executor, in the async pass. */
  datatype SubAnalysis = SubAnalysis(
    core: Core, groups: Groups, dispatchers: map<Priority, Path>, prio0: seq<Member>)

  ghost function Local(sub: SubApp, p: Priority): seq<Member> {
    GroupOf(sub.swTasks, Some(sub.core), p)
  }

  ghost function Multi(sub: SubApp, p: Priority): seq<Member> {
    GroupOf(sub.mcTasks, None, p)
  }

  /** The priorities that need a dispatcher: all in use, but 0 in the async pass. */
  ghost function InUse(sub: SubApp, skip0: bool): set<Priority> {
    set p: Priority | (Local(sub, p) != [] || Multi(sub, p) != []) && !(skip0 && p == 0)
  }

  /** What the analysis accepts. */
  ghost predicate Acceptable(sub: SubApp, skip0: bool) {
    && (skip0 ==> Multi(sub, 0) == [])
    && (forall p: Priority :: Local(sub, p) == [] || Multi(sub, p) == [] || (skip0 && p == 0))
    && (forall p: Priority :: Uniform(Multi(sub, p)))
    && |InUse(sub, skip0)| <= |sub.dispatchers|
  }

  /** What it then guarantees: at each priority in use there is the group of all its tasks, in declaration order and
      with their capacities; one core may spawn the whole group; the groups have the dispatchers in ascending order. */
  ghost predicate Sound(sub: SubApp, a: SubAnalysis, skip0: bool) {
    && a.core == sub.core
    && a.groups.Keys == a.dispatchers.Keys == InUse(sub, skip0)
    && (forall p :: p in a.groups ==> a.groups[p] == Local(sub, p) + Multi(sub, p) && Uniform(a.groups[p]))
    && (forall p :: p in a.groups ==> var i := Rank(a.groups.Keys, p);
                                      i < |sub.dispatchers| && a.dispatchers[p] == sub.dispatchers[i])
    && a.prio0 == if skip0 then Local(sub, 0) else []
  }

  lemma {:induction false} LocalIsUniform(tasks: seq<TaskDecl>, core: Core, p: Priority)
    ensures forall i :: 0 <= i < |GroupOf(tasks, Some(core), p)| ==> GroupOf(tasks, Some(core), p)[i].core == core
  {
    if tasks != [] { LocalIsUniform(tasks[..|tasks| - 1], core, p); }
  }

  /** Each error names what is wrong. */
  ghost predicate Justified(sub: SubApp, e: Error, skip0: bool) {
    match e
    case Overlap(p) => Local(sub, p) != [] && Multi(sub, p) != []
    case DifferentSpawners(p) => !Uniform(Multi(sub, p))
    case TooFewDispatchers(expected, found) => expected == |InUse(sub, skip0)| > found == |sub.dispatchers|
    case CrossCorePriority0(name) => skip0 && exists t :: t in sub.mcTasks && t.prio == 0 && t.name == name
  }

  ghost predicate BothGrouped(sub: SubApp, sw: Groups, mc: Groups, skip0: bool) {
    && Grouped(sw, sub.swTasks, Some(sub.core), skip0) && Grouped(mc, sub.mcTasks, None, skip0)
    && (skip0 ==> Multi(sub, 0) == [])
  }

  lemma DisjointMeans(sub: SubApp, sw: Groups, mc: Groups, skip0: bool)
    requires BothGrouped(sub, sw, mc, skip0)
    ensures (forall p :: p in mc ==> p !in sw) <==>
              forall p: Priority :: Local(sub, p) == [] || Multi(sub, p) == [] || (skip0 && p == 0)
  {
    forall p: Priority
      ensures p in sw && p in mc <==> !(Local(sub, p) == [] || Multi(sub, p) == [] || (skip0 && p == 0))
    {
    }
  }

  lemma UniformMeans(sub: SubApp, sw: Groups, mc: Groups, skip0: bool)
    requires BothGrouped(sub, sw, mc, skip0)
    ensures (forall p :: p in mc ==> Uniform(mc[p])) <==> forall p: Priority :: Uniform(Multi(sub, p))
  {
    forall p: Priority ensures Uniform(Multi(sub, p)) <==> (p in mc ==> Uniform(mc[p])) {
    }
  }

  lemma MergedGroups(sub: SubApp, sw: Groups, mc: Groups, skip0: bool)
    requires BothGrouped(sub, sw, mc, skip0) && forall p :: p in mc ==> p !in sw
    requires forall p: Priority :: Uniform(Multi(sub, p))
    ensures (sw + mc).Keys == InUse(sub, skip0)
    ensures forall p :: p in sw + mc ==> (sw + mc)[p] == Local(sub, p) + Multi(sub, p) && Uniform((sw + mc)[p])
  {
    forall p | p in sw + mc ensures (sw + mc)[p] == Local(sub, p) + Multi(sub, p) && Uniform((sw + mc)[p]) {
      LocalIsUniform(sub.swTasks, sub.core, p);
    }
  }

  // ----- What the analysis means for the declarations

  /** The priorities of the declarations that need a dispatcher. */
  ghost function Needed(sub: SubApp, skip0: bool): set<Priority> {
    set p: Priority | (Uses(sub.swTasks, p) || Uses(sub.mcTasks, p)) && !(skip0 && p == 0)
  }

  ghost predicate Overlaps(sub: SubApp, p: Priority) {
    Uses(sub.swTasks, p) && Uses(sub.mcTasks, p)
  }

  /** No multi-core task has priority 0 (in the async pass), or the priority of a local one, or that of a multi-core
      task with another spawning core; and there are dispatchers enough. */
  ghost predicate Accepted(sub: SubApp, skip0: bool) {
    && (skip0 ==> !Uses(sub.mcTasks, 0))
    && (forall p: Priority :: !Overlaps(sub, p) && !Mixed(sub.mcTasks, p))
    && |Needed(sub, skip0)| <= |sub.dispatchers|
  }

  /** The group of priority `p` lists the local tasks or the multi-core tasks of that priority. */
  ghost predicate GroupComplete(sub: SubApp, group: seq<Member>, p: Priority) {
    if Uses(sub.swTasks, p) then Lists(group, Selected(sub.swTasks, p), Some(sub.core))
    else Lists(group, Selected(sub.mcTasks, p), None)
  }

  /** ... and there is such a group for each priority that needs a dispatcher, and one for the idle executor. */
  ghost predicate Complete(sub: SubApp, a: SubAnalysis, skip0: bool) {
    && a.core == sub.core && a.groups.Keys == a.dispatchers.Keys == Needed(sub, skip0)
    && (forall p :: p in a.groups ==> GroupComplete(sub, a.groups[p], p))
    && (if skip0 then Lists(a.prio0, Selected(sub.swTasks, 0), Some(sub.core)) else a.prio0 == [])
  }

  /** Which error comes: that of priority 0 first, then the least overlap, then the least mixed group, then the
      dispatchers. */
  ghost predicate Refused(sub: SubApp, e: Error, skip0: bool) {
    match e
    case CrossCorePriority0(name) => skip0 && exists t :: t in sub.mcTasks && t.prio == 0 && t.name == name
    case Overlap(p) =>
      && (skip0 ==> !Uses(sub.mcTasks, 0)) && Overlaps(sub, p) && forall q: Priority :: q < p ==> !Overlaps(sub, q)
    case DifferentSpawners(p) =>
      && (skip0 ==> !Uses(sub.mcTasks, 0)) && (forall q: Priority :: !Overlaps(sub, q))
      && Mixed(sub.mcTasks, p) && forall q: Priority :: q < p ==> !Mixed(sub.mcTasks, q)
    case TooFewDispatchers(expected, found) =>
      && (skip0 ==> !Uses(sub.mcTasks, 0)) && (forall q: Priority :: !Overlaps(sub, q) && !Mixed(sub.mcTasks, q))
      && expected == |Needed(sub, skip0)| > found == |sub.dispatchers|
  }

  lemma DeclaredMeans(sub: SubApp, skip0: bool)
    ensures forall p: Priority :: Uses(sub.swTasks, p) <==> Local(sub, p) != []
    ensures forall p: Priority :: Uses(sub.mcTasks, p) <==> Multi(sub, p) != []
    ensures forall p: Priority :: Mixed(sub.mcTasks, p) <==> !Uniform(Multi(sub, p))
    ensures Needed(sub, skip0) == InUse(sub, skip0)
  {
    forall p: Priority
      ensures Uses(sub.swTasks, p) <==> Local(sub, p) != []
      ensures Uses(sub.mcTasks, p) <==> Multi(sub, p) != []
      ensures Mixed(sub.mcTasks, p) <==> !Uniform(Multi(sub, p))
    {
      UsesIff(sub.swTasks, Some(sub.core), p);
      UsesIff(sub.mcTasks, None, p);
      MixedIff(sub.mcTasks, p);
    }
  }

  lemma AcceptedIff(sub: SubApp, skip0: bool)
    ensures Accepted(sub, skip0) <==> Acceptable(sub, skip0)
  {
    DeclaredMeans(sub, skip0);
  }

  lemma SoundIsComplete(sub: SubApp, a: SubAnalysis, skip0: bool)
    requires Sound(sub, a, skip0) && Acceptable(sub, skip0)
    ensures Complete(sub, a, skip0)
  {
    DeclaredMeans(sub, skip0);
    forall p | p in a.groups ensures GroupComplete(sub, a.groups[p], p) {
      GroupIsComplete(sub, p, skip0);
    }
    GroupLists(sub.swTasks, Some(sub.core), 0);
  }

  lemma GroupIsComplete(sub: SubApp, p: Priority, skip0: bool)
    requires Local(sub, p) == [] || Multi(sub, p) == [] || (skip0 && p == 0 && Multi(sub, 0) == [])
    ensures GroupComplete(sub, Local(sub, p) + Multi(sub, p), p)
  {
    UsesIff(sub.swTasks, Some(sub.core), p);
    GroupLists(sub.swTasks, Some(sub.core), p);
    GroupLists(sub.mcTasks, None, p);
    assert Local(sub, p) + [] == Local(sub, p) && [] + Multi(sub, p) == Multi(sub, p);
  }

  lemma OverlapRefused(sub: SubApp, sw: Groups, mc: Groups, p: Priority, skip0: bool)
    requires BothGrouped(sub, sw, mc, skip0) && p in sw && p in mc && forall q :: q in mc && q < p ==> q !in sw
    ensures Justified(sub, Overlap(p), skip0) && Refused(sub, Overlap(p), skip0) && !Acceptable(sub, skip0)
  {
    DeclaredMeans(sub, skip0);
    forall q: Priority | q < p ensures !Overlaps(sub, q) {
      assert q in mc ==> q !in sw;
    }
  }

  lemma MixedRefused(sub: SubApp, sw: Groups, mc: Groups, p: Priority, skip0: bool)
    requires BothGrouped(sub, sw, mc, skip0) && (forall q :: q in mc ==> q !in sw)
    requires p in mc && !Uniform(mc[p]) && forall q :: q in mc && q < p ==> Uniform(mc[q])
    ensures Justified(sub, DifferentSpawners(p), skip0) && Refused(sub, DifferentSpawners(p), skip0)
    ensures !Acceptable(sub, skip0)
  {
    DeclaredMeans(sub, skip0);
    DisjointMeans(sub, sw, mc, skip0);
    forall q: Priority | q < p ensures !Mixed(sub.mcTasks, q) {
      assert q in mc ==> Uniform(mc[q]);
    }
  }

  lemma TooFewRefused(sub: SubApp, sw: Groups, mc: Groups, skip0: bool)
    requires BothGrouped(sub, sw, mc, skip0) && (forall q :: q in mc ==> q !in sw && Uniform(mc[q]))
    ensures forall q: Priority :: !Overlaps(sub, q) && !Mixed(sub.mcTasks, q)
    ensures Needed(sub, skip0) == InUse(sub, skip0) == (sw + mc).Keys && (skip0 ==> !Uses(sub.mcTasks, 0))
    ensures Acceptable(sub, skip0) <==> |sw + mc| <= |sub.dispatchers|
  {
    DeclaredMeans(sub, skip0);
    DisjointMeans(sub, sw, mc, skip0);
    UniformMeans(sub, sw, mc, skip0);
    MergedGroups(sub, sw, mc, skip0);
    assert |sw + mc| == |(sw + mc).Keys|;
  }

  /** The checks and the assignment on the two maps, which both passes share. */
  method CheckAndAssign(sub: SubApp, sw: Groups, mc: Groups, prio0: seq<Member>, ghost skip0: bool)
    returns (r: Result<SubAnalysis, Error>)
    requires BothGrouped(sub, sw, mc, skip0) && prio0 == if skip0 then Local(sub, 0) else []
    ensures r.Ok? <==> Acceptable(sub, skip0)
    ensures if r.Ok? then Sound(sub, r.value, skip0) else Justified(sub, r.error, skip0)
    ensures r.Err? ==> Refused(sub, r.error, skip0)
  {
    var overlap := CheckDisjointPriorities(sw, mc);
    if overlap.Some? {
      OverlapRefused(sub, sw, mc, overlap.value, skip0);
      return Err(Overlap(overlap.value));
    }
    var mixed := CheckUniformSpawnBy(mc);
    if mixed.Some? {
      MixedRefused(sub, sw, mc, mixed.value, skip0);
      return Err(DifferentSpawners(mixed.value));
    }
    TooFewRefused(sub, sw, mc, skip0);
    var assignment := AssignDispatchers(sw + mc, sub.dispatchers);
    if assignment.Err? {
      return Err(assignment.error);
    }
    UniformMeans(sub, sw, mc, skip0);
    MergedGroups(sub, sw, mc, skip0);
    return Ok(SubAnalysis(sub.core, sw + mc, assignment.value, prio0));
  }

  /** `analyse_subapp` of the software pass. */
  method AnalyseSubapp(sub: SubApp) returns (r: Result<SubAnalysis, Error>)
    ensures r.Ok? <==> Accepted(sub, false)
    ensures if r.Ok? then Complete(sub, r.value, false) else Refused(sub, r.error, false)
    ensures r.Ok? <==> Acceptable(sub, false)
    ensures if r.Ok? then Sound(sub, r.value, false) else Justified(sub, r.error, false)
  {
    var sw := GroupByPriority(sub.swTasks, Some(sub.core));
    var mc := GroupByPriority(sub.mcTasks, None);
    r := CheckAndAssign(sub, sw, mc, [], false);
    AcceptedIff(sub, false);
    if r.Ok? { SoundIsComplete(sub, r.value, false); }
  }

  /** `analyse_subapp` of the async pass. */
  method AnalyseAsyncSubapp(sub: SubApp) returns (r: Result<SubAnalysis, Error>)
    ensures r.Ok? <==> Accepted(sub, true)
    ensures if r.Ok? then Complete(sub, r.value, true) else Refused(sub, r.error, true)
    ensures r.Ok? <==> Acceptable(sub, true)
    ensures if r.Ok? then Sound(sub, r.value, true) else Justified(sub, r.error, true)
  {
    var sw: Groups := map[];
    var prio0: seq<Member> := [];
    for i := 0 to |sub.swTasks|
      invariant Grouped(sw, sub.swTasks[..i], Some(sub.core), true)
      invariant prio0 == GroupOf(sub.swTasks[..i], Some(sub.core), 0)
    {
      var task := sub.swTasks[i];
      assert sub.swTasks[..i + 1] == sub.swTasks[..i] + [task];
      if task.prio == 0 {
        prio0 := prio0 + [MemberOf(task, Some(sub.core))];
        assert Grouped(sw, sub.swTasks[..i + 1], Some(sub.core), true) by {
          SkipTask(sw, sub.swTasks[..i], task, Some(sub.core));
        }
      } else {
        sw := AddToGroup(sw, task, Some(sub.core), sub.swTasks[..i], true);
      }
    }
    assert sub.swTasks[..|sub.swTasks|] == sub.swTasks;
    var mc: Groups := map[];
    for i := 0 to |sub.mcTasks|
      invariant Grouped(mc, sub.mcTasks[..i], None, true) && GroupOf(sub.mcTasks[..i], None, 0) == []
    {
      var task := sub.mcTasks[i];
      assert sub.mcTasks[..i + 1] == sub.mcTasks[..i] + [task];
      if task.prio == 0 {
        InGroup(sub.mcTasks, None, i);
        AcceptedIff(sub, true);
        return Err(CrossCorePriority0(task.name));
      }
      mc := AddToGroup(mc, task, None, sub.mcTasks[..i], true);
    }
    assert sub.mcTasks[..|sub.mcTasks|] == sub.mcTasks;
    r := CheckAndAssign(sub, sw, mc, prio0, true);
    AcceptedIff(sub, true);
    if r.Ok? { SoundIsComplete(sub, r.value, true); }
  }

  lemma SkipTask(groups: Groups, before: seq<TaskDecl>, t: TaskDecl, local: Option<Core>)
    requires Grouped(groups, before, local, true) && t.prio == 0
    ensures Grouped(groups, before + [t], local, true)
  {
    assert (before + [t])[..|before|] == before;
  }

  // ----- Every task is in exactly one group

  /** ... with its own capacity and spawning core ... */
  lemma {:induction false} InGroup(tasks: seq<TaskDecl>, local: Option<Core>, i: nat)
    requires i < |tasks|
    ensures MemberOf(tasks[i], local) in GroupOf(tasks, local, tasks[i].prio)
    ensures MemberOf(tasks[i], local) ==
            Member(tasks[i].name, match local case Some(core) => core case None => tasks[i].spawnBy, tasks[i].capacity)
  {
    if i < |tasks| - 1 { InGroup(tasks[..|tasks| - 1], local, i); }
  }

  function Total(tasks: seq<TaskDecl>, local: Option<Core>, n: nat): nat
    requires n <= PRIORITIES
  {
    if n == 0 then 0 else Total(tasks, local, n - 1) + |GroupOf(tasks, local, n - 1)|
  }

  /** ... and the groups together have no more members than there are tasks. */
  lemma {:induction false} NobodyTwice(tasks: seq<TaskDecl>, local: Option<Core>)
    ensures Total(tasks, local, PRIORITIES) == |tasks|
  {
    if tasks == [] {
      TotalOfNone(local, PRIORITIES);
    } else {
      NobodyTwice(tasks[..|tasks| - 1], local);
      OneMore(tasks, local, PRIORITIES);
    }
  }

  lemma {:induction false} TotalOfNone(local: Option<Core>, n: nat)
    requires n <= PRIORITIES
    ensures Total([], local, n) == 0
  {
    if n > 0 { TotalOfNone(local, n - 1); }
  }

  lemma {:induction false} OneMore(tasks: seq<TaskDecl>, local: Option<Core>, n: nat)
    requires tasks != [] && n <= PRIORITIES
    ensures Total(tasks, local, n) ==
            Total(tasks[..|tasks| - 1], local, n) + if tasks[|tasks| - 1].prio < n then 1 else 0
  {
    if n > 0 { OneMore(tasks, local, n - 1); }
  }

  /** Two groups never share a dispatcher: different priorities have different positions of the list, in order. */
  lemma DispatchersDistinct(sub: SubApp, a: SubAnalysis, skip0: bool, p: Priority, q: Priority)
    requires Sound(sub, a, skip0) && p in a.groups && q in a.groups && p < q
    ensures exists i, j :: 0 <= i < j < |sub.dispatchers| &&
                           a.dispatchers[p] == sub.dispatchers[i] && a.dispatchers[q] == sub.dispatchers[j]
  {
    RankOrder(a.groups.Keys, p, q);
  }
}
