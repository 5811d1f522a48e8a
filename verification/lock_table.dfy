/** Per-path locks taken one at a time in sorted order: exclusion, arrival order, no deadlock. */
module LockTable {
  import opened Documents
  import Text

  type Pid = nat

  /** A caller's sorted paths: the first `held` are locked; `queued` if it awaits the next. */
  datatype Want = Want(order: seq<Path>, held: nat, queued: bool) {
    /** The queues the caller stands in. */
    function Standing(): seq<Path> {
      var n := held + if queued then 1 else 0;
      if n <= |order| then order[..n] else []
    }
  }

  /** Each queue holds its callers in arrival order; the first holds the lock. */
  datatype Table = Table(queues: map<Path, seq<Pid>>, wants: map<Pid, Want>) {
    function Queue(p: Path): seq<Pid> {
      if p in queues then queues[p] else []
    }
  }

  predicate Heads(q: seq<Pid>, pid: Pid) {
    q != [] && q[0] == pid
  }

  ghost predicate Sorted(order: seq<Path>) {
    forall i, j :: 0 <= i < j < |order| ==> Text.Less(order[i].Render(), order[j].Render())
  }

  lemma SortedIsDistinct(order: seq<Path>, i: nat, j: nat)
    requires Sorted(order) && i < j < |order|
    ensures order[i] != order[j]
  {
    Text.LessIsIrreflexive(order[i].Render());
  }

  ghost predicate NoRepeats(q: seq<Pid>) {
    forall i, j :: 0 <= i < j < |q| ==> q[i] != q[j]
  }

  predicate Awaits(t: Table, pid: Pid, p: Path) {
    pid in t.wants && p in t.wants[pid].Standing()
  }

  ghost predicate WantOk(w: Want) {
    Sorted(w.order) && w.held + (if w.queued then 1 else 0) <= |w.order|
  }

  /** Queues hold exactly the callers that asked, once each; a held lock is held from the head. */
  ghost predicate TableOk(t: Table) {
    && (forall pid :: pid in t.wants ==> WantOk(t.wants[pid]))
    && (forall p :: NoRepeats(t.Queue(p)))
    && (forall p, pid :: pid in t.Queue(p) <==> Awaits(t, pid, p))
    && (forall pid, k :: pid in t.wants && 0 <= k < t.wants[pid].held ==>
          Heads(t.Queue(t.wants[pid].order[k]), pid))
  }

  // ---- operations ----

  function Open(t: Table, pid: Pid, order: seq<Path>): Table {
    t.(wants := t.wants[pid := Want(order, 0, false)])
  }

  predicate CanJoin(t: Table, pid: Pid) {
    pid in t.wants && !t.wants[pid].queued && t.wants[pid].held < |t.wants[pid].order|
  }

  function Join(t: Table, pid: Pid): Table
    requires CanJoin(t, pid)
  {
    var w := t.wants[pid];
    var p := w.order[w.held];
    Table(t.queues[p := t.Queue(p) + [pid]], t.wants[pid := w.(queued := true)])
  }

  predicate CanTake(t: Table, pid: Pid) {
    && pid in t.wants && t.wants[pid].queued && t.wants[pid].held < |t.wants[pid].order|
    && Heads(t.Queue(t.wants[pid].order[t.wants[pid].held]), pid)
  }

  function Take(t: Table, pid: Pid): Table
    requires CanTake(t, pid)
  {
    var w := t.wants[pid];
    t.(wants := t.wants[pid := Want(w.order, w.held + 1, false)])
  }

  predicate CanLeave(t: Table, pid: Pid) {
    && pid in t.wants && !t.wants[pid].queued && 0 < t.wants[pid].held <= |t.wants[pid].order|
    && Heads(t.Queue(t.wants[pid].order[t.wants[pid].held - 1]), pid)
  }

  function Leave(t: Table, pid: Pid): Table
    requires CanLeave(t, pid)
  {
    var w := t.wants[pid];
    var p := w.order[w.held - 1];
    Table(t.queues[p := t.Queue(p)[1..]], t.wants[pid := w.(held := w.held - 1)])
  }

  // ---- preservation ----

  lemma OpenKeeps(t: Table, pid: Pid, order: seq<Path>)
    requires TableOk(t) && pid !in t.wants && Sorted(order)
    ensures TableOk(Open(t, pid, order))
  {
    var t' := Open(t, pid, order);
    forall p, x ensures x in t'.Queue(p) <==> Awaits(t', x, p) {
      assert x in t.Queue(p) <==> Awaits(t, x, p);
    }
    assert forall p :: t'.Queue(p) == t.Queue(p);
  }

  lemma JoinKeeps(t: Table, pid: Pid)
    requires TableOk(t) && CanJoin(t, pid)
    ensures TableOk(Join(t, pid))
  {
    var t', w := Join(t, pid), t.wants[pid];
    var path := w.order[w.held];
    assert WantOk(w);
    assert path !in w.Standing() by {
      forall i | 0 <= i < w.held ensures w.order[i] != path { SortedIsDistinct(w.order, i, w.held); }
    }
    assert t'.wants[pid].Standing() == w.Standing() + [path];
    assert !Awaits(t, pid, path);
    forall p, x ensures x in t'.Queue(p) <==> Awaits(t', x, p) {
      assert x in t.Queue(p) <==> Awaits(t, x, p);
    }
    forall p ensures NoRepeats(t'.Queue(p)) {
      assert NoRepeats(t.Queue(p));
    }
    forall x, k | x in t'.wants && 0 <= k < t'.wants[x].held
      ensures Heads(t'.Queue(t'.wants[x].order[k]), x)
    {
      assert Heads(t.Queue(t.wants[x].order[k]), x);
    }
  }

  lemma TakeKeeps(t: Table, pid: Pid)
    requires TableOk(t) && CanTake(t, pid)
    ensures TableOk(Take(t, pid))
  {
    var t', w := Take(t, pid), t.wants[pid];
    assert t'.wants[pid].Standing() == w.Standing();
    forall p, x ensures x in t'.Queue(p) <==> Awaits(t', x, p) {
      assert x in t.Queue(p) <==> Awaits(t, x, p);
    }
    assert forall p :: t'.Queue(p) == t.Queue(p);
    forall x, k | x in t'.wants && 0 <= k < t'.wants[x].held
      ensures Heads(t'.Queue(t'.wants[x].order[k]), x)
    {
      assert k < t.wants[x].held ==> Heads(t.Queue(t.wants[x].order[k]), x);
    }
  }

  lemma TailOf(q: seq<Pid>)
    requires NoRepeats(q) && q != []
    ensures NoRepeats(q[1..])
    ensures forall x :: x in q[1..] <==> x in q && x != q[0]
  {
    assert q == [q[0]] + q[1..];
    forall x | x in q[1..] ensures x != q[0] {
      var i :| 0 <= i < |q[1..]| && q[1..][i] == x;
      assert q[i + 1] == x;
    }
  }

  /** Releasing the last lock takes the caller out of that queue alone. */
  lemma LeaveMoves(t: Table, pid: Pid)
    requires CanLeave(t, pid) && WantOk(t.wants[pid])
    ensures
      var t', path := Leave(t, pid), t.wants[pid].order[t.wants[pid].held - 1];
      && (forall p :: t'.Queue(p) == if p == path then t.Queue(path)[1..] else t.Queue(p))
      && (forall x, p :: Awaits(t', x, p) <==> Awaits(t, x, p) && !(x == pid && p == path))
  {
    var w, w' := t.wants[pid], Leave(t, pid).wants[pid];
    var path := w.order[w.held - 1];
    forall i | 0 <= i < w.held - 1 ensures w.order[i] != path { SortedIsDistinct(w.order, i, w.held - 1); }
    assert w.Standing() == w'.Standing() + [path];
  }

  lemma LeaveKeepsHeads(t: Table, pid: Pid, x: Pid, k: nat)
    requires CanLeave(t, pid) && x in t.wants && k < Leave(t, pid).wants[x].held
    requires WantOk(t.wants[pid]) && WantOk(t.wants[x]) && Heads(t.Queue(t.wants[x].order[k]), x)
    ensures Heads(Leave(t, pid).Queue(t.wants[x].order[k]), x)
  {
    LeaveMoves(t, pid);
    if x == pid {
      SortedIsDistinct(t.wants[pid].order, k, t.wants[pid].held - 1);
    }
  }

  lemma LeaveKeeps(t: Table, pid: Pid)
    requires TableOk(t) && CanLeave(t, pid)
    ensures TableOk(Leave(t, pid))
  {
    var t', path := Leave(t, pid), t.wants[pid].order[t.wants[pid].held - 1];
    LeaveMoves(t, pid);
    TailOf(t.Queue(path));
    forall p, x ensures x in t'.Queue(p) <==> Awaits(t', x, p) {
      assert x in t.Queue(p) <==> Awaits(t, x, p);
    }
    forall p ensures NoRepeats(t'.Queue(p)) {
      assert NoRepeats(t.Queue(p));
    }
    forall x, k | x in t'.wants && 0 <= k < t'.wants[x].held
      ensures Heads(t'.Queue(t'.wants[x].order[k]), x)
    {
      assert Heads(t.Queue(t.wants[x].order[k]), x);
      LeaveKeepsHeads(t, pid, x, k);
    }
  }

  // ---- exclusion and progress ----

  /** No path is held twice. */
  lemma HeldOnce(t: Table, a: Pid, b: Pid, i: nat, j: nat)
    requires TableOk(t) && a in t.wants && b in t.wants && a != b
    requires i < t.wants[a].held && j < t.wants[b].held
    ensures t.wants[a].order[i] != t.wants[b].order[j]
  {
    assert Heads(t.Queue(t.wants[a].order[i]), a);
    assert Heads(t.Queue(t.wants[b].order[j]), b);
  }

  /** A caller holding locks and queued for none can release the last of them. */
  lemma HolderCanLeave(t: Table, pid: Pid)
    requires TableOk(t) && pid in t.wants && !t.wants[pid].queued && t.wants[pid].held > 0
    ensures CanLeave(t, pid)
  {
    assert WantOk(t.wants[pid]);
    assert Heads(t.Queue(t.wants[pid].order[t.wants[pid].held - 1]), pid);
  }

  ghost predicate Before(p: Path, q: Path) {
    Text.Less(p.Render(), q.Render())
  }

  /** The path a queued caller awaits. */
  function Awaited(w: Want): Path
    requires w.queued && w.held < |w.order|
  {
    w.order[w.held]
  }

  lemma HolderStands(t: Table, pid: Pid)
    requires TableOk(t) && pid in t.wants && t.wants[pid].queued && WantOk(t.wants[pid])
    ensures t.Queue(Awaited(t.wants[pid])) != []
    ensures Awaits(t, t.Queue(Awaited(t.wants[pid]))[0], Awaited(t.wants[pid]))
    ensures WantOk(t.wants[t.Queue(Awaited(t.wants[pid]))[0]])
  {
    var w := t.wants[pid];
    assert Awaited(w) == w.Standing()[w.held];
    assert Awaits(t, pid, Awaited(w));
    assert Awaits(t, t.Queue(Awaited(w))[0], Awaited(w));
  }

  /** A caller that awaits another path than one it stands for holds that one, and awaits a later one. */
  lemma HolderAwaitsLater(h: Want, path: Path)
    requires WantOk(h) && h.queued && path in h.Standing() && Awaited(h) != path
    ensures Before(path, Awaited(h))
  {
    var k :| 0 <= k < |h.Standing()| && h.Standing()[k] == path;
    assert h.order[k] == path && k < h.held;
  }

  /**
   * No deadlock: follow a queued caller to the holder of the path it awaits. Locks are taken in
   * sorted order, so each holder met awaits a later path, none is met twice, and the chain ends at
   * a caller that is first in its queue or queued for nothing.
   */
  lemma ChainEnds(t: Table, pid: Pid, seen: set<Pid>) returns (mover: Pid)
    requires TableOk(t) && pid in t.wants && t.wants[pid].queued
    requires pid !in seen && seen <= t.wants.Keys
    requires WantOk(t.wants[pid])
    requires forall x :: x in seen ==>
               t.wants[x].queued && WantOk(t.wants[x]) && Before(Awaited(t.wants[x]), Awaited(t.wants[pid]))
    ensures mover in t.wants && (!t.wants[mover].queued || CanTake(t, mover))
    ensures t.wants[mover].queued || t.wants[mover].held > 0
    decreases |t.wants.Keys - seen|
  {
    var path := Awaited(t.wants[pid]);
    HolderStands(t, pid);
    var holder := t.Queue(path)[0];
    var h := t.wants[holder];
    if !h.queued || Awaited(h) == path {
      mover := holder;
    } else {
      HolderAwaitsLater(h, path);
      LaterThanAll(t, pid, seen, Awaited(h));
      assert holder !in seen + {pid} by {
        Text.LessIsIrreflexive(Awaited(h).Render());
      }
      assert t.wants.Keys - (seen + {pid}) == (t.wants.Keys - seen) - {pid};
      mover := ChainEnds(t, holder, seen + {pid});
    }
  }

  lemma LaterThanAll(t: Table, pid: Pid, seen: set<Pid>, later: Path)
    requires pid in t.wants && t.wants[pid].queued && WantOk(t.wants[pid]) && seen <= t.wants.Keys
    requires forall x :: x in seen ==>
               t.wants[x].queued && WantOk(t.wants[x]) && Before(Awaited(t.wants[x]), Awaited(t.wants[pid]))
    requires Before(Awaited(t.wants[pid]), later)
    ensures forall x :: x in seen + {pid} ==>
              t.wants[x].queued && WantOk(t.wants[x]) && Before(Awaited(t.wants[x]), later)
  {
    forall x | x in seen
      ensures Before(Awaited(t.wants[x]), later)
    {
      Text.LessIsTransitive(Awaited(t.wants[x]).Render(), Awaited(t.wants[pid]).Render(), later.Render());
    }
  }
}
