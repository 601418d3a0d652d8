/** The emitted `spawn` and dispatcher of one software priority group over the real ring buffers of rticx-spsc.  The
    ghost field `pending` is the FIFO that the ready queue and the input queues implement together. */
module SwRuntime {
  import opened Wrappers
  import Spsc
  import opened SwDispatch

  method MakeInputs<I(0)>(caps: seq<nat>) returns (queues: seq<Spsc.Queue<I>>, ghost frame: set<object>)
    ensures |queues| == |caps| && fresh(frame)
    ensures forall i :: 0 <= i < |caps| ==> queues[i].Repr() <= frame
    ensures forall i :: 0 <= i < |caps| ==>
                          queues[i].Valid() && queues[i].DEPTH == caps[i] + 1 && queues[i].Contents() == []
    ensures forall i, j :: 0 <= i < j < |caps| ==> queues[i].Repr() !! queues[j].Repr()
  {
    queues, frame := [], {};
    for t := 0 to |caps|
      invariant |queues| == t && fresh(frame)
      invariant forall i :: 0 <= i < t ==> queues[i].Repr() <= frame
      invariant forall i :: 0 <= i < t ==>
                              queues[i].Valid() && queues[i].DEPTH == caps[i] + 1 && queues[i].Contents() == []
      invariant forall i, j :: 0 <= i < j < t ==> queues[i].Repr() !! queues[j].Repr()
    {
      var queue := new Spsc.Queue<I>(caps[t] + 1);
      queues, frame := queues + [queue], frame + queue.Repr();
    }
  }

  class Runtime<I(0)> {
    const caps: seq<nat>
    const inputs: seq<Spsc.Queue<I>>
    const ready: Spsc.Queue<Task>
    var initialized: bool
    var irq: bool
    /** The calls of the tasks' `exec`, in order. */
    var executed: seq<Pair<I>>
    ghost var pending: seq<Pair<I>>
    /** The dispatcher holds the token of the head of the FIFO, and has not yet taken its input. */
    ghost var held: bool
    ghost var accepted: seq<Pair<I>>

    /** The memory of the input queues. */
    ghost const inputFrame: set<object>

    ghost function Frame(): set<object> {
      ready.Repr() + inputFrame
    }

    /** No two queues share memory. */
    ghost predicate Separate() {
      && inputFrame !! ready.Repr() + {this}
      && (forall i :: 0 <= i < |inputs| ==> inputs[i].Repr() <= inputFrame)
      && (forall i, j :: 0 <= i < j < |inputs| ==> inputs[i].Repr() !! inputs[j].Repr())
    }

    /** The input queues hold the inputs of the FIFO `p`, task by task. */
    ghost predicate InputsHold(p: seq<Pair<I>>)
      requires Separate()
      reads inputFrame
    {
      && |inputs| == |caps|
      && (forall t :: 0 <= t < |inputs| ==>
                inputs[t].Valid() && inputs[t].DEPTH == caps[t] + 1 && inputs[t].Contents() == Inputs(p, t))
    }

    ghost predicate ReadyHolds(p: seq<Pair<I>>)
      reads ready.Repr()
    {
      ready.Valid() && ready.DEPTH == Sum(caps) + 1 && ready.Contents() == Tokens(p)
    }

    ghost predicate Known(p: seq<Pair<I>>) {
      forall i :: 0 <= i < |p| ==> p[i].0 < |inputs|
    }

    /** The part of the FIFO `p` whose tokens are on the ready queue. */
    ghost function Queued(p: seq<Pair<I>>): seq<Pair<I>>
      reads `held
    {
      if held && p != [] then p[1..] else p
    }

    ghost predicate Valid()
      reads `pending, `held, Frame()
    {
      Separate() && InputsHold(pending) && ReadyHolds(Queued(pending)) && Known(pending) && (held ==> pending != [])
    }

    lemma QueuedPush(p: seq<Pair<I>>, x: Pair<I>)
      requires (held ==> p != []) && Known(p) && x.0 < |inputs|
      ensures Queued(p + [x]) == Queued(p) + [x] && Known(p + [x]) && |Queued(p)| <= |p|
    {
    }

    /** The capacities bound the whole FIFO. */
    lemma Bounded(p: seq<Pair<I>>)
      requires Separate() && InputsHold(p) && Known(p)
      ensures |p| <= Sum(caps)
    {
      forall t | 0 <= t < |caps| ensures |Inputs(p, t)| <= caps[t] {
        assert |inputs[t].Contents()| <= caps[t];
      }
      CountedByTask(p, caps);
    }

    /** The statics of the group: empty queues, one cell larger than their capacity. */
    constructor (caps: seq<nat>)
      ensures Valid() && this.caps == caps
      ensures !initialized && !irq && pending == [] && !held && executed == [] && accepted == []
    {
      this.caps := caps;
      var queues, frame := MakeInputs<I>(caps);
      inputs, inputFrame := queues, frame;
      ready := new Spsc.Queue<Task>(Sum(caps) + 1);
      initialized, irq, executed, pending, held, accepted := false, false, [], [], false, [];
    }

    lemma AllInputsPush(p: seq<Pair<I>>, t: Task, input: I, n: nat)
      ensures forall u :: 0 <= u < n ==>
                            Inputs(p + [(t, input)], u) == if u == t then Inputs(p, u) + [input] else Inputs(p, u)
    {
      forall u | 0 <= u < n
        ensures Inputs(p + [(t, input)], u) == if u == t then Inputs(p, u) + [input] else Inputs(p, u)
      {
        InputsPush(p, (t, input), u);
      }
    }

    /** `inputs_producer.enqueue(input)`. */
    method QueueInput(t: Task, input: I) returns (ok: bool)
      requires Separate() && InputsHold(pending) && t < |inputs|
      modifies inputs[t].Repr()
      ensures ok <==> |Inputs(pending, t)| < caps[t]
      ensures InputsHold(if ok then pending + [(t, input)] else pending)
    {
      ok := inputs[t].Enqueue(input);
      AllInputsPush(pending, t, input, |inputs|);
      assert forall u :: 0 <= u < |inputs| && u != t ==> inputs[u].Repr() !! inputs[t].Repr();
    }

    /** `ready_producer.enqueue_unchecked(t)`: there is room. */
    method PushToken(t: Task, ghost p: seq<Pair<I>>, ghost input: I)
      requires ReadyHolds(p) && t < |inputs| && |p| < Sum(caps)
      modifies ready.Repr()
      ensures ReadyHolds(p + [(t, input)])
    {
      assert |Tokens(p)| == |p|;
      ready.EnqueueUnchecked(t);
      assert Tokens(p + [(t, input)]) == Tokens(p) + [t];
    }

    /** The closure of `spawn` after its first test: the FIFO grows by the spawn, unless the input queue is full. */
    method EnqueueBoth(t: Task, input: I) returns (ok: bool)
      requires Valid() && t < |inputs|
      modifies inputs[t].Repr(), ready.Repr(), `pending, `accepted
      ensures Valid()
      ensures ok <==> |Inputs(old(pending), t)| < caps[t]
      ensures pending == if ok then old(pending) + [(t, input)] else old(pending)
      ensures accepted == if ok then old(accepted) + [(t, input)] else old(accepted)
    {
      ghost var p := pending;
      ok := QueueInput(t, input);
      assert ReadyHolds(Queued(p));
      if ok {
        QueueToken(t, input);
      }
    }

    /** The half of it after the input is queued. */
    method QueueToken(t: Task, ghost input: I)
      requires Separate() && InputsHold(pending + [(t, input)]) && ReadyHolds(Queued(pending)) && Known(pending)
      requires (held ==> pending != []) && t < |inputs|
      modifies ready.Repr(), `pending, `accepted
      ensures Valid() && pending == old(pending) + [(t, input)] && accepted == old(accepted) + [(t, input)]
    {
      ghost var p := pending;
      QueuedPush(p, (t, input));
      Bounded(p + [(t, input)]);
      PushToken(t, Queued(p), input);
      pending := p + [(t, input)];
      accepted := accepted + [(t, input)];
    }

    /** Accepted exactly when the system is initialised and the task's input queue has room; then the spawn is the last
        of the FIFO and the dispatcher is pended.  Otherwise the input is handed back and nothing changes. */
    method Spawn(t: Task, input: I) returns (refused: Option<I>)
      requires Valid() && t < |inputs|
      modifies inputs[t].Repr(), ready.Repr(), `irq, `pending, `accepted
      ensures Valid()
      ensures refused == if initialized && |Inputs(old(pending), t)| < caps[t] then None else Some(input)
      ensures pending == if refused.None? then old(pending) + [(t, input)] else old(pending)
      ensures accepted == if refused.None? then old(accepted) + [(t, input)] else old(accepted)
      ensures irq == (old(irq) || refused.None?)
    {
      if !initialized {
        return Some(input);
      }
      var ok := EnqueueBoth(t, input);
      if !ok {
        return Some(input);
      }
      irq := true;
      return None;
    }

    /** `ready_consumer.dequeue()`: the token of the head of the FIFO. */
    method TakeToken() returns (task: Option<Task>)
      requires Valid() && !held
      modifies ready.Repr(), `held
      ensures Valid() && held == task.Some?
      ensures task == if pending == [] then None else Some(pending[0].0)
    {
      assert pending != [] ==> Tokens(pending)[0] == pending[0].0 && Tokens(pending)[1..] == Tokens(pending[1..]);
      task := ready.Dequeue();
      held := task.Some?;
    }

    method DequeueInput(t: Task, ghost p: seq<Pair<I>>) returns (input: I)
      requires Separate() && InputsHold(p) && p != [] && t == p[0].0 < |inputs|
      modifies inputs[t].Repr()
      ensures (t, input) == p[0] && InputsHold(p[1..])
    {
      assert inputs[t].Contents() == Inputs(p, t) == [p[0].1] + Inputs(p[1..], t);
      input := inputs[t].DequeueUnchecked();
      assert forall u :: 0 <= u < |inputs| && u != t ==> inputs[u].Repr() !! inputs[t].Repr();
    }

    /** `input_consumer.dequeue_unchecked()` in the branch of the token's task: its input is there, and is the one that
        was spawned with the token. */
    method TakeInput(t: Task) returns (input: I)
      requires Valid() && held && t == pending[0].0
      modifies inputFrame, `pending, `held
      ensures Valid() && !held && old(pending) == [(t, input)] + pending
    {
      ghost var p := pending;
      input := DequeueInput(t, p);
      assert ReadyHolds(p[1..]);
      pending := p[1..];
      held := false;
    }

    /** Spawns that happen between two accesses of the dispatcher, or while a task's `exec` runs, by that task or by
        what preempts it; `more` are the accepted ones. */
    method Arrive(spawns: seq<Pair<I>>) returns (ghost more: seq<Pair<I>>)
      requires Valid() && Known(spawns)
      modifies Frame(), `irq, `pending, `accepted
      ensures Valid() && (spawns == [] ==> more == [])
      ensures accepted == old(accepted) + more && pending == old(pending) + more
    {
      more := [];
      for i := 0 to |spawns|
        invariant Valid() && (i == 0 ==> more == [])
        invariant accepted == old(accepted) + more && pending == old(pending) + more
      {
        ghost var one := ArriveOne(spawns[i]);
        Regroup(old(pending), more, one);
        Regroup(old(accepted), more, one);
        more := more + one;
      }
    }

    method ArriveOne(x: Pair<I>) returns (ghost one: seq<Pair<I>>)
      requires Valid() && x.0 < |inputs|
      modifies Frame(), `irq, `pending, `accepted
      ensures Valid() && accepted == old(accepted) + one && pending == old(pending) + one
    {
      var refused := Spawn(x.0, x.1);
      one := if refused.None? then [x] else [];
    }

    /** What was executed and what waits, in that order. */
    ghost function Line(): seq<Pair<I>>
      reads `executed, `pending
    {
      executed + pending
    }

    /** Spawns `between` the dequeue of a token and that of its input. */
    method TakeLater(t: Task, between: seq<Pair<I>>) returns (input: I, ghost more: seq<Pair<I>>)
      requires Valid() && held && t == pending[0].0 && Known(between)
      modifies Frame(), `irq, `pending, `held, `accepted
      ensures Valid() && !held && accepted == old(accepted) + more && (between == [] ==> more == [])
      ensures [(t, input)] + pending == old(pending) + more
    {
      more := Arrive(between);
      input := TakeInput(t);
    }

    /** The call of the task's `exec`, and spawns `during` it. */
    method Execute(x: Pair<I>, during: seq<Pair<I>>) returns (ghost more: seq<Pair<I>>)
      requires Valid() && !held && Known(during)
      modifies Frame(), `irq, `pending, `accepted, `executed
      ensures Valid() && accepted == old(accepted) + more && (during == [] ==> more == [])
      ensures executed == old(executed) + [x] && pending == old(pending) + more
    {
      more := Arrive(during);
      executed := executed + [x];
    }

    /** The branch of one token. */
    method Branch(t: Task, between: seq<Pair<I>>, during: seq<Pair<I>>) returns (ghost more: seq<Pair<I>>)
      requires Valid() && held && t == pending[0].0 && Known(between) && Known(during)
      modifies Frame(), `irq, `pending, `held, `accepted, `executed
      ensures Valid() && !held && accepted == old(accepted) + more && Line() == old(Line()) + more
      ensures between == during == [] ==> |pending| == |old(pending)| - 1
    {
      ghost var done, p, before := executed, pending, accepted;
      var input, first := TakeLater(t, between);
      ghost var rest := pending;
      ghost var second := Execute((t, input), during);
      more := first + second;
      LineGrows(done, p, first, (t, input), rest, second);
      Regroup(before, first, second);
      assert executed == done + [(t, input)] && pending == rest + second;
    }

    lemma LineGrows(done: seq<Pair<I>>, p: seq<Pair<I>>, first: seq<Pair<I>>, x: Pair<I>, rest: seq<Pair<I>>,
                    second: seq<Pair<I>>)
      requires [x] + rest == p + first
      ensures done + [x] + (rest + second) == done + p + (first + second)
      ensures first == second == [] ==> |rest + second| == |p| - 1
    {
      assert done + [x] + (rest + second) == done + ([x] + rest) + second;
      assert done + p + (first + second) == done + (p + first) + second;
      assert |[x] + rest| == |p + first|;
    }

    /** The line consists of `start` and the spawns accepted `since`. */
    ghost predicate Progress(start: seq<Pair<I>>, before: seq<Pair<I>>, since: seq<Pair<I>>)
      reads `executed, `pending, `accepted
    {
      accepted == before + since && Line() == start + since
    }

    lemma Extend(start: seq<Pair<I>>, before: seq<Pair<I>>, since: seq<Pair<I>>, more: seq<Pair<I>>)
      requires accepted == before + since + more && Line() == start + since + more
      ensures Progress(start, before, since + more)
    {
      assert before + since + more == before + (since + more);
      assert start + since + more == start + (since + more);
    }

    /** The dispatcher, with the `k`-th batch of `arrivals` at its `k`-th access or call.  It returns with both kinds of
        queues empty, having executed what was queued at its start and everything that was accepted meanwhile (`since`),
        each once and in order. */
    method Exec(arrivals: seq<seq<Pair<I>>>) returns (ghost since: seq<Pair<I>>)
      requires Valid() && !held
      requires forall k :: 0 <= k < |arrivals| ==> Known(arrivals[k])
      modifies Frame(), `irq, `pending, `held, `accepted, `executed
      ensures Valid() && !held && pending == []
      ensures accepted == old(accepted) + since
      ensures executed == old(executed) + old(pending) + since
    {
      ghost var start, before := executed + pending, accepted;
      since := [];
      var k := 0;
      var task := TakeToken();
      while task.Some?
        invariant Valid() && held == task.Some? && Progress(start, before, since)
        invariant task == if pending == [] then None else Some(pending[0].0)
        decreases if k < |arrivals| then |arrivals| - k else 0, |pending|
      {
        var between := if k < |arrivals| then arrivals[k] else [];
        var during := if k + 1 < |arrivals| then arrivals[k + 1] else [];
        ghost var more := Branch(task.value, between, during);
        Extend(start, before, since, more);
        k := k + 2;
        since := since + more;
        task := TakeToken();
      }
    }
  }
}
