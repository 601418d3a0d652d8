/** `rticx-spsc`: the ring buffer.  The indices only grow and are reduced modulo DEPTH at every access. */
module Spsc {
  import opened Wrappers

  lemma SameResidue(a: nat, b: nat, depth: nat)
    requires depth >= 1 && b <= a < b + depth
    ensures a % depth == b % depth <==> a == b
  {
    if a % depth == b % depth {
      var q := a / depth - b / depth;
      assert a - b == depth * q;
      if q >= 1 {
        Multiple(depth, q);
      }
    }
  }

  lemma Multiple(d: nat, q: nat)
    requires q >= 1
    ensures d * q >= d
  {
  }

  lemma WholeTurn(a: nat, depth: nat)
    requires depth >= 1
    ensures (a + depth) % depth == a % depth
  {
    var q, r := a / depth, a % depth;
    assert a + depth == depth * (q + 1) + r;
    QuotientUnique(a + depth, depth, q + 1, r);
  }

  lemma QuotientUnique(a: nat, depth: nat, q: nat, r: nat)
    requires depth >= 1 && a == depth * q + r && r < depth
    ensures a % depth == r
  {
    var k := q - a / depth;
    assert a % depth - r == depth * k;
    if k >= 1 { Multiple(depth, k); }
    if k <= -1 { Multiple(depth, -k); }
  }

  /** The residue tests of `enqueue` and `dequeue` decide full and empty. */
  lemma ResidueTests(read: nat, write: nat, depth: nat)
    requires depth >= 1 && read <= write < read + depth
    ensures (write + 1) % depth != read % depth <==> write - read < depth - 1
    ensures read % depth == write % depth <==> write == read
  {
    SameResidue(write, read, depth);
    if write - read < depth - 1 {
      SameResidue(write + 1, read, depth);
    } else {
      WholeTurn(read, depth);
    }
  }

  lemma Euclid(a: nat, d: nat)
    requires d >= 1
    ensures a == d * (a / d) + a % d
  {
  }

  lemma Regroup(depth: int, k: int, q: int, a: int)
    ensures depth * (k * q + a) == (depth * k) * q + depth * a
  {
    assert depth * (k * q) == (depth * k) * q;
  }

  lemma ResidueOfResidue(i: nat, depth: nat, size: nat, k: nat)
    requires depth >= 1 && size >= 1 && size == depth * k
    ensures (i % size) % depth == i % depth
  {
    var q, m := i / size, i % size;
    Euclid(i, size);
    Euclid(m, depth);
    Regroup(depth, k, q, m / depth);
    CombinedResidue(i, depth, size, k, q, m);
  }

  lemma CombinedResidue(i: nat, depth: nat, size: nat, k: nat, q: nat, m: nat)
    requires depth >= 1 && size == depth * k && i == size * q + m
    requires depth * (k * q + m / depth) == size * q + depth * (m / depth)
    requires m == depth * (m / depth) + m % depth
    ensures m % depth == i % depth
  {
    QuotientUnique(i, depth, k * q + m / depth, m % depth);
  }

  /** `write + 1` in a machine word is the same whether or not `write` has wrapped before. */
  lemma NextWrapped(i: nat, size: nat)
    requires size >= 1
    ensures (i % size + 1) % size == (i + 1) % size
  {
    var q, m := i / size, i % size;
    Euclid(i, size);
    Euclid(m + 1, size);
    assert size * (q + (m + 1) / size) == size * q + size * ((m + 1) / size) by {
      Regroup(size, 1, q, (m + 1) / size);
    }
    QuotientUnique(i + 1, size, q + (m + 1) / size, (m + 1) % size);
  }

  /** The tests of `enqueue` and `dequeue` on indices of a word of `size` values, for a queue that has seen `write`
      elements come and `read` go: full and empty are decided right. */
  predicate TestsRight(read: nat, write: nat, depth: nat, size: nat)
    requires depth >= 1 && size >= 1
  {
    var r, w := read % size, write % size;
    && ((w + 1) % size % depth != r % depth <==> write - read < depth - 1)
    && (r % depth == w % depth <==> read == write)
  }

  lemma WrapIsHarmless(read: nat, write: nat, depth: nat, size: nat)
    requires depth >= 1 && size >= 1 && size % depth == 0 && read <= write < read + depth
    ensures TestsRight(read, write, depth, size)
  {
    Euclid(size, depth);
    ResidueOfResidue(read, depth, size, size / depth);
    ResidueOfResidue(write, depth, size, size / depth);
    NextWrapped(write, size);
    ResidueOfResidue(write + 1, depth, size, size / depth);
    ResidueTests(read, write, depth);
  }

  /** Just after the writer has wrapped, elements are queued and `dequeue` reports an empty queue. */
  lemma WrapBreaksTests(depth: nat, size: nat) returns (read: nat)
    requires depth >= 1 && size >= 1 && size % depth != 0
    ensures read <= size < read + depth && !TestsRight(read, size, depth, size)
  {
    Euclid(size, depth);
    read := size - size % depth;
    QuotientUnique(read, depth, size / depth, 0);
    QuotientUnique(read, size, 0, read);
    QuotientUnique(size, size, 1, 0);
    SameTest(read, size, depth, size, read, 0);
  }

  lemma SameTest(read: nat, write: nat, depth: nat, size: nat, r: nat, w: nat)
    requires depth >= 1 && size >= 1 && r == read % size && w == write % size
    requires r % depth == w % depth && read != write
    ensures !TestsRight(read, write, depth, size)
  {
  }

  ghost predicate AlwaysRight(depth: nat, size: nat)
    requires depth >= 1 && size >= 1
  {
    forall read: nat, write: nat :: read <= write < read + depth ==> TestsRight(read, write, depth, size)
  }

  /** Indices are stored in a machine word and wrap at `size`: both tests are right after any number of operations if
      and only if DEPTH divides `size`. */
  lemma WrappedIndices(depth: nat, size: nat)
    requires depth >= 1 && size >= 1
    ensures AlwaysRight(depth, size) <==> size % depth == 0
  {
    if size % depth == 0 {
      AlwaysRightIfDivides(depth, size);
    } else {
      var read := WrapBreaksTests(depth, size);
    }
  }

  lemma AlwaysRightIfDivides(depth: nat, size: nat)
    requires depth >= 1 && size >= 1 && size % depth == 0
    ensures AlwaysRight(depth, size)
  {
    forall read: nat, write: nat | read <= write < read + depth ensures TestsRight(read, write, depth, size) {
      WrapIsHarmless(read, write, depth, size);
    }
  }

  class Queue<T(0)> {
    const DEPTH: nat
    const buffer: array<T>
    var readIdx: nat
    var writeIdx: nat

    ghost function Repr(): set<object> {
      {this, buffer}
    }

    ghost predicate Valid()
      reads this
    {
      DEPTH >= 1 && buffer.Length == DEPTH && readIdx <= writeIdx < readIdx + DEPTH
    }

    /** The queued elements, oldest first; at most DEPTH - 1 of them. */
    ghost function Contents(): (s: seq<T>)
      requires Valid()
      reads this, buffer
      ensures |s| == writeIdx - readIdx <= DEPTH - 1
    {
      seq(writeIdx - readIdx,
          i requires Valid() && 0 <= i < writeIdx - readIdx reads this, buffer => buffer[(readIdx + i) % DEPTH])
    }

    constructor (depth: nat)
      requires depth >= 1
      ensures Valid() && DEPTH == depth && fresh(buffer) && Contents() == []
    {
      DEPTH := depth;
      buffer := new T[depth];
      readIdx, writeIdx := 0, 0;
    }

    /** Refused, with nothing changed, exactly when DEPTH - 1 elements are queued. */
    method Enqueue(data: T) returns (ok: bool)
      requires Valid()
      modifies `writeIdx, buffer
      ensures Valid()
      ensures ok <==> |old(Contents())| < DEPTH - 1
      ensures Contents() == if ok then old(Contents()) + [data] else old(Contents())
    {
      var w := writeIdx;
      ResidueTests(readIdx, w, DEPTH);
      if (w + 1) % DEPTH != readIdx % DEPTH {
        EnqueueUnchecked(data);
        return true;
      }
      return false;
    }

    method EnqueueUnchecked(data: T)
      requires Valid() && |Contents()| < DEPTH - 1
      modifies `writeIdx, buffer
      ensures Valid() && Contents() == old(Contents()) + [data]
    {
      ghost var was := Contents();
      forall i | readIdx <= i < writeIdx ensures i % DEPTH != writeIdx % DEPTH {
        SameResidue(writeIdx, i, DEPTH);
      }
      buffer[writeIdx % DEPTH] := data;
      writeIdx := writeIdx + 1;
      assert forall i :: 0 <= i < |was| ==> Contents()[i] == was[i];
    }

    method Dequeue() returns (r: Option<T>)
      requires Valid()
      modifies `readIdx
      ensures Valid()
      ensures r == if old(Contents()) == [] then None else Some(old(Contents())[0])
      ensures Contents() == if old(Contents()) == [] then [] else old(Contents())[1..]
    {
      ResidueTests(readIdx, writeIdx, DEPTH);
      if readIdx % DEPTH == writeIdx % DEPTH {
        return None;
      }
      var data := DequeueUnchecked();
      return Some(data);
    }

    method DequeueUnchecked() returns (data: T)
      requires Valid() && Contents() != []
      modifies `readIdx
      ensures Valid() && data == old(Contents())[0] && Contents() == old(Contents())[1..]
    {
      data := buffer[readIdx % DEPTH];
      readIdx := readIdx + 1;
    }
  }

  // ----- After `split`: the producer's and the consumer's accesses interleave

  /** The producer between its test, its write of the cell and its store of `write_idx`. */
  datatype Producer<T> = Resting | Admitted(x: T) | Stored(x: T)
  /** The consumer between its test, its read of the cell and its store of `read_idx`. */
  datatype Consumer<T> = Waiting | Claimed | Loaded(x: T)

  /** `accepted` and `delivered` are the elements whose index update has happened. */
  datatype Ring<T> = Ring(
    buffer: seq<T>, read: nat, write: nat, producer: Producer<T>, consumer: Consumer<T>,
    accepted: seq<T>, delivered: seq<T>)

  /** The unchecked operations skip the test; without what their caller must guarantee they are not a step. */
  datatype Action<T> =
    | Offer(x: T)
    | OfferUnchecked(x: T)
    | Store
    | Publish
    | Ask
    | AskUnchecked
    | Load
    | Release

  function Step<T>(r: Ring<T>, a: Action<T>): Option<Ring<T>>
    requires |r.buffer| >= 1
  {
    var depth := |r.buffer|;
    match a
    case Offer(x) =>
      if !r.producer.Resting? then None
      else if (r.write + 1) % depth != r.read % depth then Some(r.(producer := Admitted(x)))
      else Some(r)
    case OfferUnchecked(x) =>
      if r.producer.Resting? && r.write - r.read < depth - 1 then Some(r.(producer := Admitted(x))) else None
    case Store =>
      if r.producer.Admitted? then
        Some(r.(buffer := r.buffer[r.write % depth := r.producer.x], producer := Stored(r.producer.x)))
      else None
    case Publish =>
      if r.producer.Stored? then
        Some(r.(write := r.write + 1, accepted := r.accepted + [r.producer.x], producer := Resting))
      else None
    case Ask =>
      if !r.consumer.Waiting? then None
      else if r.read % depth == r.write % depth then Some(r)
      else Some(r.(consumer := Claimed))
    case AskUnchecked =>
      if r.consumer.Waiting? && r.read < r.write then Some(r.(consumer := Claimed)) else None
    case Load =>
      if r.consumer.Claimed? then Some(r.(consumer := Loaded(r.buffer[r.read % depth]))) else None
    case Release =>
      if r.consumer.Loaded? then
        Some(r.(read := r.read + 1, delivered := r.delivered + [r.consumer.x], consumer := Waiting))
      else None
  }

  function Run<T>(r: Ring<T>, acts: seq<Action<T>>): Option<Ring<T>>
    requires |r.buffer| >= 1
    decreases |acts|
  {
    if acts == [] then Some(r)
    else
      match Step(r, acts[0])
      case Some(m) => Run(m, acts[1..])
      case None => None
  }

  function Empty<T>(cells: seq<T>): Ring<T> {
    Ring(cells, 0, 0, Resting, Waiting, [], [])
  }

  /** The window `read..write` holds what was accepted and not delivered; both sides only ever see it too full
      (the producer) or too empty (the consumer). */
  ghost predicate Inv<T>(r: Ring<T>) {
    var depth := |r.buffer|;
    && depth >= 1 && r.read <= r.write < r.read + depth
    && |r.accepted| == r.write
    && r.delivered == r.accepted[..r.read]
    && (forall i :: r.read <= i < r.write ==> r.buffer[i % depth] == r.accepted[i])
    && (!r.producer.Resting? ==> r.write < r.read + depth - 1)
    && (r.producer.Stored? ==> r.buffer[r.write % depth] == r.producer.x)
    && (!r.consumer.Waiting? ==> r.read < r.write)
    && (r.consumer.Loaded? ==> r.consumer.x == r.accepted[r.read])
  }

  /** The cell that an admitted producer is about to write lies outside the live window. */
  lemma ProducerMissesWindow<T>(r: Ring<T>, i: nat)
    requires Inv(r) && !r.producer.Resting? && r.read <= i < r.write
    ensures i % |r.buffer| != r.write % |r.buffer|
  {
    SameResidue(r.write, i, |r.buffer|);
  }

  lemma StepInv<T>(r: Ring<T>, a: Action<T>)
    requires Inv(r) && Step(r, a).Some?
    ensures Inv(Step(r, a).value)
  {
    ResidueTests(r.read, r.write, |r.buffer|);
    if a.Store? {
      forall i | r.read <= i < r.write ensures i % |r.buffer| != r.write % |r.buffer| {
        ProducerMissesWindow(r, i);
      }
    }
  }

  lemma {:induction false} RunInv<T>(r: Ring<T>, acts: seq<Action<T>>)
    requires Inv(r) && Run(r, acts).Some?
    ensures Inv(Run(r, acts).value)
    decreases |acts|
  {
    if acts != [] {
      StepInv(r, acts[0]);
      RunInv(Step(r, acts[0]).value, acts[1..]);
    }
  }

  /** However the checked and unchecked operations of the two sides interleave, the elements come out in the order
      they were accepted, never more than DEPTH - 1 are in the queue, and an offer is refused (an ask finds nothing)
      only when that many (none) are between the two indices. */
  lemma InterleavingIsFifo<T>(cells: seq<T>, acts: seq<Action<T>>, r: Ring<T>, x: T)
    requires |cells| >= 1 && Run(Empty(cells), acts) == Some(r)
    ensures |r.buffer| >= 1 && r.delivered <= r.accepted && |r.accepted| - |r.delivered| <= |r.buffer| - 1
    ensures r.producer.Resting? ==>
              (Step(r, Offer(x)) == Some(r) <==> |r.accepted| - |r.delivered| == |r.buffer| - 1)
    ensures r.consumer.Waiting? ==> (Step(r, Ask) == Some(r) <==> r.delivered == r.accepted)
    ensures r.consumer.Loaded? ==> |r.delivered| < |r.accepted| && r.consumer.x == r.accepted[|r.delivered|]
  {
    RunInv(Empty(cells), acts);
    ResidueTests(r.read, r.write, |r.buffer|);
  }

  /** The enqueue of one side by itself: admitted if and only if fewer than DEPTH - 1 elements are queued, and then the
      last of the accepted ones. */
  lemma OfferAppends<T>(r: Ring<T>, x: T)
    requires Inv(r) && r.producer.Resting?
    ensures Step(r, Offer(x)) ==
            if r.write - r.read < |r.buffer| - 1 then Some(r.(producer := Admitted(x))) else Some(r)
    ensures r.write - r.read < |r.buffer| - 1 ==> Step(r, OfferUnchecked(x)) == Some(r.(producer := Admitted(x)))
    ensures var a := r.(producer := Admitted(x));
            && Step(a, Store).Some?
            && var b := Step(a, Store).value;
            && |b.buffer| == |r.buffer| && Step(b, Publish).Some?
            && Step(b, Publish).value == r.(buffer := b.buffer, write := r.write + 1, accepted := r.accepted + [x])
  {
    ResidueTests(r.read, r.write, |r.buffer|);
  }

  /** The dequeue of the other side by itself: it finds an element if and only if one is queued, the oldest. */
  lemma AskDelivers<T>(r: Ring<T>)
    requires Inv(r) && r.consumer.Waiting?
    ensures Step(r, Ask) == if r.read < r.write then Some(r.(consumer := Claimed)) else Some(r)
    ensures r.read < r.write ==>
              && |r.delivered| < |r.accepted|
              && var x := r.accepted[|r.delivered|];
              && Step(r, AskUnchecked) == Some(r.(consumer := Claimed))
              && Step(r.(consumer := Claimed), Load) == Some(r.(consumer := Loaded(x)))
              && Step(r.(consumer := Loaded(x)), Release) ==
                 Some(r.(read := r.read + 1, delivered := r.delivered + [x]))
  {
    ResidueTests(r.read, r.write, |r.buffer|);
  }
}
