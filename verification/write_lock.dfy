/** The promise-chain mutex. Promises are numbered in the order they are created. */
module WriteLocks {

  /** The numbers from `from` up to and including `to`. */
  ghost function Numbers(from: nat, to: nat): (s: seq<nat>)
    requires from <= to + 1
    ensures |s| == to + 1 - from
    ensures forall i :: 0 <= i < |s| ==> s[i] == from + i
  {
    seq(to + 1 - from, i => from + i)
  }

  class WriteLock {
    /** The last promise made; promise 0 is born resolved. */
    var tail: nat
    var resolved: set<nat>
    var depth: int
    /** Promises up to this one are resolved. */
    ghost var served: nat

    ghost predicate Valid()
      reads this
    {
      && served <= tail
      && (forall p :: p in resolved <==> 0 <= p <= served)
      && 0 <= depth <= 1 && (depth == 1 ==> served < tail)
    }

    /** Callers not yet finished, in arrival order, each known by the promise it will resolve. */
    ghost function Queue(): seq<nat>
      requires Valid()
      reads this
    {
      Numbers(served + 1, tail)
    }

    constructor ()
      ensures Valid() && Queue() == [] && depth == 0
    {
      tail, resolved, depth := 0, {0}, 0;
      served := 0;
    }

    method Held() returns (held: bool)
      requires Valid()
      ensures held ==> Queue() != []
      ensures held <==> depth == 1
    {
      held := depth > 0;
    }

    /** The synchronous part of `withLock`: a new tail, and the promise to await before the body. */
    method Arrive() returns (previous: nat, own: nat)
      requires Valid()
      modifies this
      ensures Valid() && Queue() == old(Queue()) + [own]
      ensures own == previous + 1 && depth == old(depth)
    {
      previous := tail;
      tail := tail + 1;
      own := tail;
    }

    /** The awaited promise has resolved and the body starts; nobody else's is running. */
    method Enter(previous: nat, own: nat)
      requires Valid() && own in Queue() && own == previous + 1 && previous in resolved
      requires depth == 1 ==> Queue()[0] != own // a body is started once
      modifies this
      ensures Valid() && Queue() == old(Queue()) && Queue()[0] == own
      ensures old(depth) == 0 && depth == 1
    {
      depth := depth + 1;
    }

    /** The `finally` block, reached whether the body returned or threw. */
    method Leave(own: nat)
      requires Valid() && depth == 1 && Queue()[0] == own
      modifies this
      ensures Valid() && Queue() == old(Queue())[1..] && depth == 0
    {
      depth := depth - 1;
      resolved := resolved + {own};
      served := served + 1;
    }
  }

  /** A caller's turn comes exactly when it is the earliest arrival still unfinished. */
  lemma TurnsComeInArrivalOrder(lock: WriteLock, own: nat)
    requires lock.Valid() && own in lock.Queue()
    ensures own - 1 in lock.resolved <==> lock.Queue()[0] == own
  {
    assert lock.Queue()[0] == lock.served + 1;
  }

  /** No queue is stuck: its first caller can always go on, whatever became of those before it. */
  lemma FirstCallerCanEnter(lock: WriteLock)
    requires lock.Valid() && lock.Queue() != []
    ensures lock.Queue()[0] - 1 in lock.resolved
  {
    assert lock.Queue()[0] == lock.served + 1;
  }
}
