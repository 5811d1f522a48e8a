/** Two levels of locks under every interleaving: exclusion and freedom from deadlock. */
module EngineLocks {
  import opened Wrappers
  import opened Documents
  import opened Storage
  import opened Requests
  import opened LockTable
  import opened Engine

  /** `WriteMany` past its path locks and not yet over. */
  predicate InBody(pc: Pc) {
    pc.Checking? || pc.Reading? || pc.Comparing? || pc.Refusing? || pc.Staging? || pc.Entering?
    || pc.Publishing?
  }

  ghost predicate CallOk(call: Call, order: seq<Path>) {
    && (call.WriteMany? ==>
          DistinctPaths(call.req.muts) && LegalPaths(call.req.muts) && IsLockOrder(order, call.req.muts))
    && (!call.WriteMany? ==> order == [])
  }

  /** What a program counter says of the path locks held. */
  predicate PointOk(p: Proc, w: Want) {
    && (!p.call.WriteMany? ==> !InBody(p.pc) && !p.pc.Acquiring?)
    && (p.call.WriteMany? ==> !p.pc.Looking?)
    && (p.pc.Booting? || p.pc.Looking? || p.pc.Finished? ==> w.held == 0 && !w.queued)
    && (InBody(p.pc) ==> w.held == |w.order| && !w.queued)
    && (p.pc.Releasing? ==> !w.queued)
  }

  /** What a program counter says of the call's own variables. */
  ghost predicate ProcOk(p: Proc) {
    && (p.pc.Booting? || p.pc.Acquiring? || p.pc.Checking? ==> p.current == [])
    && (p.pc.Booting? || p.pc.Acquiring? || p.pc.Checking? || p.pc.Reading? || p.pc.Comparing? || p.pc.Refusing?
        ==> p.tx == None)
    && (InBody(p.pc) && !p.pc.Checking? ==> p.call.WriteMany? && Valid(p.call.req))
    && (p.pc.Reading? ==> |p.current| < |p.Muts()|)
    && (p.pc.Comparing? || p.pc.Refusing? || p.pc.Staging? || p.pc.Entering? ==>
          |p.current| == |p.Muts()|)
    && (p.pc.Refusing? ==> !Expected(p.Muts(), p.current))
    && (p.pc.Staging? || p.pc.Entering? ==>
          && Expected(p.Muts(), p.current)
          && (p.tx == None <==> Changed(p.Muts(), p.current) == []))
    && (p.pc.Staging? ==> p.tx.Some?)
  }

  ghost predicate Coupled(s: State) {
    && s.table.wants.Keys == s.procs.Keys
    && forall pid :: pid in s.procs ==>
         && PointOk(s.procs[pid], s.table.wants[pid])
         && CallOk(s.procs[pid].call, s.table.wants[pid].order)
         && ProcOk(s.procs[pid])
  }

  ghost predicate PubOk(s: State) {
    && NoRepeats(s.pub)
    && (forall pid :: pid in s.pub <==> pid in s.procs && InPub(s.procs[pid].pc))
    && (forall pid :: pid in s.procs && s.procs[pid].pc.Publishing? ==> Heads(s.pub, pid))
  }

  ghost predicate LocksOk(s: State) {
    TableOk(s.table) && Coupled(s) && PubOk(s)
  }

  // ---- preservation ----

  /** Only taking and giving back locks touches the table. */
  lemma OtherStepsLeaveTable(s: State, pid: Pid, tx: TxId, how: Manner)
    requires CanAdvance(s, pid) && !s.procs[pid].pc.Acquiring? && !s.procs[pid].pc.Releasing?
    ensures Go(s, pid, tx, how).table == s.table
  {
  }

  lemma StepKeepsTable(s: State, pid: Pid, tx: TxId, how: Manner)
    requires TableOk(s.table) && CanAdvance(s, pid)
    ensures TableOk(Go(s, pid, tx, how).table)
  {
    var p := s.procs[pid];
    if p.pc.Acquiring? {
      if s.table.wants[pid].queued {
        TakeKeeps(s.table, pid);
      } else if CanJoin(s.table, pid) {
        JoinKeeps(s.table, pid);
      }
    } else if p.pc.Releasing? {
      if s.table.wants[pid].held > 0 {
        LeaveKeeps(s.table, pid);
      }
    } else {
      OtherStepsLeaveTable(s, pid, tx, how);
    }
  }

  lemma TableKept(s: State, a: Action)
    requires LocksOk(s) && Enabled(s, a)
    ensures TableOk(Do(s, a).table)
  {
    match a
    case Arrive(pid, _, order) => OpenKeeps(s.table, pid, order);
    case Advance(pid, tx, how) => StepKeepsTable(s, pid, tx, how);
    case Crash =>
      var t: Table := Table(map[], map[]);
      assert forall p, pid :: pid in t.Queue(p) <==> Awaits(t, pid, p);
    case _ =>
  }

  /** `t` is `s` after a move of `pid` alone, which leaves it where its program counter says. */
  ghost predicate Moved(s: State, t: State, pid: Pid) {
    && pid in s.procs && pid in t.procs && pid in s.table.wants && pid in t.table.wants
    && t.procs == s.procs[pid := t.procs[pid]]
    && t.table.wants == s.table.wants[pid := t.table.wants[pid]]
    && t.table.wants[pid].order == s.table.wants[pid].order
    && t.procs[pid].call == s.procs[pid].call && t.procs[pid].since == s.procs[pid].since
    && t.procs[pid].tears == s.procs[pid].tears
    && PointOk(t.procs[pid], t.table.wants[pid]) && ProcOk(t.procs[pid])
    && PubMoved(s, t, pid)
  }

  /** The publication queue moves with the caller: it joins, leaves, stays or goes round. */
  ghost predicate PubMoved(s: State, t: State, pid: Pid)
    requires pid in s.procs && pid in t.procs
  {
    var was, now := InPub(s.procs[pid].pc), InPub(t.procs[pid].pc);
    || (was == now && t.pub == s.pub && (t.procs[pid].pc.Publishing? ==> Heads(s.pub, pid)))
    || (!was && now && t.pub == s.pub + [pid] && !t.procs[pid].pc.Publishing?)
    || (was && Heads(s.pub, pid) && !t.procs[pid].pc.Publishing?
        && t.pub == s.pub[1..] + if now then [pid] else [])
  }

  ghost predicate AtPoint(s: State, pid: Pid) {
    && pid in s.procs && pid in s.table.wants
    && s.table.wants[pid].held <= |s.table.wants[pid].order|
    && PointOk(s.procs[pid], s.table.wants[pid]) && ProcOk(s.procs[pid])
  }

  lemma QueueMoves(s: State, pid: Pid)
    requires AtPoint(s, pid) && CanAdvance(s, pid)
    ensures s.procs[pid].pc.Booting? ==> Moved(s, Start(s, pid), pid)
    ensures s.procs[pid].pc.Acquiring? ==> Moved(s, Acquire(s, pid), pid)
    ensures s.procs[pid].pc.Releasing? ==> Moved(s, Release(s, pid), pid)
  {
  }

  lemma ReadMoves(s: State, pid: Pid)
    requires AtPoint(s, pid) && CanAdvance(s, pid)
    ensures s.procs[pid].pc.Checking? ==> Moved(s, Check(s, pid), pid)
    ensures s.procs[pid].pc.Reading? ==> Moved(s, Read(s, pid), pid)
  {
  }

  lemma CompareMoves(s: State, pid: Pid, tx: TxId)
    requires AtPoint(s, pid) && CanAdvance(s, pid) && s.procs[pid].pc.Comparing?
    ensures Moved(s, Compare(s, pid, tx), pid)
  {
  }

  lemma StageMoves(s: State, pid: Pid)
    requires AtPoint(s, pid) && CanAdvance(s, pid) && s.procs[pid].pc.Staging?
    ensures Moved(s, Stage(s, pid, s.procs[pid].pc.j), pid)
  {
  }

  /** Turned away at once, or on to publish: the lock is left, or kept. */
  lemma SettleMoves(s: State, pid: Pid, o: Outcome)
    requires AtPoint(s, pid) && CanAdvance(s, pid) && s.procs[pid].pc.Entering?
    ensures Moved(s, LeavePub(Settle(s, pid, o)), pid)
  {
  }

  lemma PublishMoves(s: State, t: State, pid: Pid, script: seq<Step>, o: Outcome)
    requires AtPoint(s, pid) && CanAdvance(s, pid) && s.procs[pid].pc.Entering?
    requires t.procs == Goto(s, pid, Publishing(script, o)).procs && t.table == s.table && t.pub == s.pub
    ensures Moved(s, t, pid)
  {
  }

  lemma EnterMoves(s: State, pid: Pid, how: Manner)
    requires AtPoint(s, pid) && CanAdvance(s, pid) && s.procs[pid].pc.Entering?
    ensures Moved(s, Enter(s, pid, how), pid)
  {
    var t := Enter(s, pid, how);
    if t.procs[pid].pc.Releasing? {
      SettleMoves(s, pid, t.procs[pid].outcome);
    } else {
      PublishMoves(s, t, pid, t.procs[pid].pc.script, t.procs[pid].pc.result);
    }
  }

  lemma ProceedMoves(s: State, pid: Pid)
    requires AtPoint(s, pid) && CanAdvance(s, pid)
    ensures s.procs[pid].pc.Publishing? ==>
              Moved(s, Proceed(s, pid, s.procs[pid].pc.script, s.procs[pid].pc.result), pid)
    ensures s.procs[pid].pc.Looking? ==> Moved(s, Look(s, pid), pid)
    ensures s.procs[pid].pc.Refusing? ==>
              Moved(s, LeavePub(Settle(s, pid, if s.broken then Failed else Conflict(s.disk.revision))), pid)
  {
  }

  /** A call's own step moves it alone. */
  lemma MoverOk(s: State, pid: Pid, tx: TxId, how: Manner)
    requires AtPoint(s, pid) && CanAdvance(s, pid)
    ensures Moved(s, Go(s, pid, tx, how), pid)
  {
    QueueMoves(s, pid);
    ReadMoves(s, pid);
    if s.procs[pid].pc.Comparing? {
      CompareMoves(s, pid, tx);
    }
    if s.procs[pid].pc.Staging? {
      StageMoves(s, pid);
    }
    if s.procs[pid].pc.Entering? {
      EnterMoves(s, pid, how);
    }
    ProceedMoves(s, pid);
  }

  lemma ThrowMoves(s: State, pid: Pid, harm: bool)
    requires AtPoint(s, pid) && CanFail(s, pid)
    ensures Moved(s, Throw(s, pid, harm), pid)
    ensures Throw(s, pid, harm).table == s.table
  {
  }

  lemma MoveKeeps(s: State, t: State, pid: Pid)
    requires LocksOk(s) && Moved(s, t, pid)
    ensures Coupled(t) && PubOk(t)
  {
    if s.pub != [] {
      TailOf(s.pub);
    }
    forall x | x in t.procs && t.procs[x].pc.Publishing?
      ensures Heads(t.pub, x)
    {
      assert x != pid ==> Heads(s.pub, x);
    }
  }

  lemma AtItsPoint(s: State, pid: Pid)
    requires LocksOk(s) && pid in s.procs
    ensures AtPoint(s, pid)
  {
    assert WantOk(s.table.wants[pid]);
  }

  /** A step of one call moves that call alone. */
  lemma StepMoves(s: State, a: Action)
    requires LocksOk(s) && Enabled(s, a) && (a.Advance? || a.Fail?)
    ensures Moved(s, Do(s, a), a.pid)
  {
    AtItsPoint(s, a.pid);
    if a.Advance? {
      MoverOk(s, a.pid, a.tx, a.how);
    } else {
      ThrowMoves(s, a.pid, a.harm);
    }
  }

  lemma ArrivalCoupled(s: State, pid: Pid, call: Call, order: seq<Path>)
    requires LocksOk(s) && Enabled(s, Arrive(pid, call, order))
    ensures Coupled(Do(s, Arrive(pid, call, order))) && PubOk(Do(s, Arrive(pid, call, order)))
  {
  }

  lemma LocksKept(s: State, a: Action)
    requires LocksOk(s) && Enabled(s, a)
    ensures LocksOk(Do(s, a))
  {
    TableKept(s, a);
    if a.Advance? || a.Fail? {
      StepMoves(s, a);
      MoveKeeps(s, Do(s, a), a.pid);
    } else if a.Arrive? {
      ArrivalCoupled(s, a.pid, a.call, a.order);
    }
  }

  // ---- exclusion and progress ----

  /** A call past its path locks holds the path of each of its mutations. */
  lemma BodyHolds(s: State, pid: Pid, i: nat) returns (k: nat)
    requires Coupled(s) && pid in s.procs && InBody(s.procs[pid].pc) && i < |s.procs[pid].Muts()|
    ensures k < s.table.wants[pid].held && k < |s.table.wants[pid].order|
    ensures s.table.wants[pid].order[k] == s.procs[pid].Muts()[i].path
  {
    var p, w := s.procs[pid], s.table.wants[pid];
    assert PointOk(p, w) && CallOk(p.call, w.order);
    assert p.Muts()[i].path in w.order;
    k :| 0 <= k < |w.order| && w.order[k] == p.Muts()[i].path;
  }

  /** Two calls past their path locks write different files. */
  lemma BodiesAreDisjoint(s: State, a: Pid, b: Pid)
    requires LocksOk(s) && a in s.procs && b in s.procs && a != b
    requires InBody(s.procs[a].pc) && InBody(s.procs[b].pc)
    ensures forall i, j :: 0 <= i < |s.procs[a].Muts()| && 0 <= j < |s.procs[b].Muts()| ==>
              s.procs[a].Muts()[i].path != s.procs[b].Muts()[j].path
  {
    var p, q := s.procs[a], s.procs[b];
    forall i, j | 0 <= i < |p.Muts()| && 0 <= j < |q.Muts()|
      ensures p.Muts()[i].path != q.Muts()[j].path
    {
      var m := BodyHolds(s, a, i);
      var n := BodyHolds(s, b, j);
      HeldOnce(s.table, a, b, m, n);
    }
  }

  predicate Unfinished(s: State, pid: Pid) {
    pid in s.procs && !s.procs[pid].pc.Finished?
  }

  /**
   * Freedom from deadlock: once recovery is over, well or badly, as long as any call is unfinished
   * some unfinished call can take its own next step.
   */
  lemma SomeCallCanAdvance(s: State, pid: Pid) returns (mover: Pid)
    requires LocksOk(s) && (s.boot.Up? || s.boot.Wedged?) && Unfinished(s, pid)
    ensures Unfinished(s, mover) && CanAdvance(s, mover)
  {
    if s.pub != [] {
      mover := s.pub[0];
      assert mover in s.pub;
      assert ProcOk(s.procs[mover]);
    } else {
      mover := pid;
      if s.table.wants[pid].queued {
        mover := ChainEnds(s.table, pid, {});
      }
      assert mover !in s.pub;
      assert ProcOk(s.procs[mover]) && PointOk(s.procs[mover], s.table.wants[mover]);
      if !s.table.wants[mover].queued && s.table.wants[mover].held > 0 {
        HolderCanLeave(s.table, mover);
      }
    }
  }
}
