/** Calls come to an end: every step is progress, and no run without crashes goes on for ever. */
module EngineProgress {
  import opened Wrappers
  import opened Documents
  import opened Storage
  import opened Recovery
  import opened Requests
  import opened LockTable
  import opened Engine
  import opened EngineLocks
  import opened EngineHistory
  import opened EngineSteps
  import opened EngineTheorems

  /** How far a call is from its end: a phase, then steps within the phase. */
  function Phase(pc: Pc): nat {
    match pc
    case Booting => 9
    case Acquiring => 8
    case Checking => 7
    case Reading => 6
    case Comparing => 5
    case Refusing | Staging(_) => 4
    case Entering => 3
    case Publishing(_, _) | Looking => 2
    case Releasing => 1
    case Finished => 0
  }

  function Within(p: Proc, w: Want): int {
    match p.pc
    case Acquiring => 2 * (|w.order| - w.held) - if w.queued then 1 else 0
    case Reading => |p.Muts()| - |p.current|
    case Staging(j) => if |p.current| == |p.Muts()| then |Changed(p.Muts(), p.current)| - j else 0
    case Publishing(script, _) => |script|
    case Releasing => w.held
    case _ => 0
  }

  /** The call's place in `t` is strictly nearer its end than in `s`. */
  ghost predicate Nearer(s: State, t: State, pid: Pid)
    requires pid in s.procs && pid in t.procs && pid in s.table.wants && pid in t.table.wants
  {
    && 0 <= Within(s.procs[pid], s.table.wants[pid])
    && (|| Phase(t.procs[pid].pc) < Phase(s.procs[pid].pc)
        || (&& Phase(t.procs[pid].pc) == Phase(s.procs[pid].pc)
            && 0 <= Within(t.procs[pid], t.table.wants[pid]) < Within(s.procs[pid], s.table.wants[pid])))
  }

  /** Every step a call takes brings it strictly nearer its end and moves no other call. */
  lemma StepsAreProgress(s: State, pid: Pid, tx: TxId, how: Manner)
    requires Inv(s) && Enabled(s, Advance(pid, tx, how))
    ensures
      var t := Go(s, pid, tx, how);
      && pid in t.procs && pid in t.table.wants && Nearer(s, t, pid)
      && forall x :: x in s.procs && x != pid ==>
           x in t.procs && t.procs[x] == s.procs[x] && x in t.table.wants && t.table.wants[x] == s.table.wants[x]
  {
    StepMoves(s, Advance(pid, tx, how));
    AtItsPoint(s, pid);
    assert ProcInv(s, pid) && WantOk(s.table.wants[pid]);
    QueueNearer(s, pid);
    ReadNearer(s, pid);
    CompareNearer(s, pid, tx);
    EnterNearer(s, pid, how);
    ProceedNearer(s, pid);
  }

  lemma QueueNearer(s: State, pid: Pid)
    requires AtPoint(s, pid) && CanAdvance(s, pid) && WantOk(s.table.wants[pid])
    ensures s.procs[pid].pc.Booting? ==> Nearer(s, Start(s, pid), pid)
    ensures s.procs[pid].pc.Acquiring? ==> Nearer(s, Acquire(s, pid), pid)
    ensures s.procs[pid].pc.Releasing? ==> Nearer(s, Release(s, pid), pid)
  {
  }

  lemma ReadNearer(s: State, pid: Pid)
    requires AtPoint(s, pid) && CanAdvance(s, pid)
    ensures s.procs[pid].pc.Checking? ==> Nearer(s, Check(s, pid), pid)
    ensures s.procs[pid].pc.Reading? ==> Nearer(s, Read(s, pid), pid)
  {
  }

  lemma CompareNearer(s: State, pid: Pid, tx: TxId)
    requires AtPoint(s, pid) && CanAdvance(s, pid) && TxInv(s.disk, s.procs[pid])
    ensures s.procs[pid].pc.Comparing? ==> Nearer(s, Compare(s, pid, tx), pid)
    ensures s.procs[pid].pc.Staging? ==> Nearer(s, Stage(s, pid, s.procs[pid].pc.j), pid)
  {
  }

  lemma EnterNearer(s: State, pid: Pid, how: Manner)
    requires AtPoint(s, pid) && CanAdvance(s, pid)
    ensures s.procs[pid].pc.Entering? ==> Nearer(s, Enter(s, pid, how), pid)
  {
  }

  lemma ProceedNearer(s: State, pid: Pid)
    requires AtPoint(s, pid) && CanAdvance(s, pid)
    ensures s.procs[pid].pc.Publishing? ==>
              Nearer(s, Proceed(s, pid, s.procs[pid].pc.script, s.procs[pid].pc.result), pid)
    ensures s.procs[pid].pc.Looking? ==> Nearer(s, Look(s, pid), pid)
    ensures s.procs[pid].pc.Refusing? ==>
              Nearer(s, LeavePub(Settle(s, pid, if s.broken then Failed else Conflict(s.disk.revision))), pid)
  {
  }

  // ---- all calls together ----

  ghost function Sum(f: map<Pid, nat>): nat
    decreases |f|
  {
    if f == map[] then 0
    else
      var k :| k in f;
      f[k] + Sum(f - {k})
  }

  lemma {:induction false} SumWith(f: map<Pid, nat>, k: Pid)
    requires k in f
    ensures Sum(f) == f[k] + Sum(f - {k})
    decreases |f|
  {
    var x :| x in f && Sum(f) == f[x] + Sum(f - {x});
    if x != k {
      SumWith(f - {x}, k);
      SumWith(f - {k}, x);
      assert f - {x} - {k} == f - {k} - {x};
    }
  }

  lemma SumLess(f: map<Pid, nat>, g: map<Pid, nat>, k: Pid)
    requires k in f && k in g && f - {k} == g - {k}
    ensures Sum(g) + f[k] == Sum(f) + g[k]
  {
    SumWith(f, k);
    SumWith(g, k);
  }

  ghost function Phases(s: State): map<Pid, nat> {
    map pid | pid in s.procs :: Phase(s.procs[pid].pc)
  }

  ghost function Withins(s: State): map<Pid, nat> {
    map pid | pid in s.procs && pid in s.table.wants :: AtLeastZero(Within(s.procs[pid], s.table.wants[pid]))
  }

  function AtLeastZero(n: int): nat {
    if n < 0 then 0 else n
  }

  /** What is left to do, all calls together. */
  ghost predicate Closer(s: State, t: State) {
    Sum(Phases(t)) < Sum(Phases(s)) || (Sum(Phases(t)) == Sum(Phases(s)) && Sum(Withins(t)) < Sum(Withins(s)))
  }

  lemma OneNearer(s: State, t: State, pid: Pid)
    requires pid in s.procs && pid in s.table.wants && pid in t.procs && pid in t.table.wants && Nearer(s, t, pid)
    requires t.procs.Keys == s.procs.Keys && t.table.wants.Keys == s.table.wants.Keys
    requires forall x :: x in s.procs && x != pid ==> t.procs[x] == s.procs[x]
    requires forall x :: x in s.procs && x != pid && x in s.table.wants ==> t.table.wants[x] == s.table.wants[x]
    ensures Closer(s, t)
  {
    assert Phases(s) - {pid} == Phases(t) - {pid};
    SumLess(Phases(s), Phases(t), pid);
    assert Withins(s) - {pid} == Withins(t) - {pid};
    SumLess(Withins(s), Withins(t), pid);
  }

  lemma AdvanceStays(s: State, a: Action)
    requires LocksOk(s) && Enabled(s, a) && a.Advance?
    ensures Do(s, a).boot == s.boot && Do(s, a).procs.Keys == s.procs.Keys
    ensures Do(s, a).table.wants.Keys == s.table.wants.Keys
  {
    StepMoves(s, a);
    BootStays(s, a.pid, a.tx, a.how);
  }

  lemma BootStays(s: State, pid: Pid, tx: TxId, how: Manner)
    requires CanAdvance(s, pid)
    ensures Go(s, pid, tx, how).boot == s.boot
  {
  }

  lemma StepsCloser(s: State, pid: Pid, tx: TxId, how: Manner)
    requires Inv(s) && Enabled(s, Advance(pid, tx, how))
    ensures Closer(s, Go(s, pid, tx, how))
  {
    StepsAreProgress(s, pid, tx, how);
    AdvanceStays(s, Advance(pid, tx, how));
    OneNearer(s, Go(s, pid, tx, how), pid);
  }

  /** No run in which calls only advance goes on for ever, however the calls take turns. */
  lemma {:induction false} NoEndlessRun(states: nat -> State, moves: nat -> Action, n: nat)
    requires Inv(states(n))
    requires forall i: nat :: n <= i ==>
               moves(i).Advance? && Enabled(states(i), moves(i)) && states(i + 1) == Do(states(i), moves(i))
    ensures false
    decreases Sum(Phases(states(n))), Sum(Withins(states(n)))
  {
    var a := moves(n);
    assert states(n + 1) == Do(states(n), a);
    ActionKeeps(states(n), a);
    StepsCloser(states(n), a.pid, a.tx, a.how);
    NoEndlessRun(states, moves, n + 1);
  }

  lemma {:induction false} SomeNumberIsFree(used: set<nat>) returns (n: nat)
    ensures n !in used && forall u :: u in used ==> u < n
    decreases |used|
  {
    if used == {} {
      n := 0;
    } else {
      var u :| u in used;
      var m := SomeNumberIsFree(used - {u});
      n := if m <= u then u + 1 else m;
      assert forall v :: v in used ==> v == u || v in used - {u};
    }
  }

  lemma FreshExists(s: State) returns (tx: TxId)
    ensures Fresh(s, tx)
  {
    var live := set q | q in s.procs && s.procs[q].tx.Some? :: s.procs[q].tx.value;
    tx := SomeNumberIsFree(s.disk.dirs.Keys + live);
    assert tx !in s.disk.dirs.Keys;
    forall q | q in s.procs ensures s.procs[q].tx != Some(tx) {
      assert s.procs[q].tx.Some? ==> s.procs[q].tx.value in live;
    }
  }

  /** A name no temporary has: one longer than any of theirs. */
  lemma FreshManner(strays: Files) returns (how: Manner)
    ensures how.temp.Path() !in strays && how.order == []
  {
    var lengths := set p | p in strays :: |p.name|;
    var n := SomeNumberIsFree(lengths);
    var temp := Temp(seq(n, i => 'x'), Unparsable(""));
    assert temp.Path() in strays ==> |temp.Path().name| in lengths;
    how := Manner([], temp);
  }

  lemma LegalFirst(s: State, a: Action, rest: seq<Action>)
    requires Enabled(s, a) && Legal(Do(s, a), rest)
    ensures Legal(s, [a] + rest) && After(s, [a] + rest) == After(Do(s, a), rest)
  {
    assert ([a] + rest)[1..] == rest;
  }

  lemma SomeStep(s: State, pid: Pid) returns (a: Action)
    requires Inv(s) && (s.boot.Up? || s.boot.Wedged?) && Unfinished(s, pid)
    ensures a.Advance? && Enabled(s, a) && Inv(Do(s, a)) && Closer(s, Do(s, a))
    ensures Do(s, a).boot == s.boot && Do(s, a).procs.Keys == s.procs.Keys
  {
    var mover := SomeCallCanAdvance(s, pid);
    var tx := FreshExists(s);
    var how := FreshManner(s.disk.strays);
    a := Advance(mover, tx, how);
    ActionKeeps(s, a);
    StepsCloser(s, mover, tx, how);
    AdvanceStays(s, a);
  }

  predicate AdvancesOnly(actions: seq<Action>) {
    forall i :: 0 <= i < |actions| ==> actions[i].Advance?
  }

  lemma AdvancesFirst(a: Action, rest: seq<Action>)
    requires a.Advance? && AdvancesOnly(rest)
    ensures AdvancesOnly([a] + rest)
  {
  }

  /**
   * Every call can be answered: from any reachable state with recovery over, calls taking their own
   * steps bring every one of them to its end.
   */
  lemma {:induction false} AllCanFinish(s: State) returns (actions: seq<Action>)
    requires Inv(s) && (s.boot.Up? || s.boot.Wedged?)
    ensures Legal(s, actions) && AdvancesOnly(actions)
    ensures forall pid :: pid in s.procs ==> pid in After(s, actions).procs && After(s, actions).procs[pid].pc.Finished?
    decreases Sum(Phases(s)), Sum(Withins(s))
  {
    if pid :| Unfinished(s, pid) {
      var a := SomeStep(s, pid);
      var rest := AllCanFinish(Do(s, a));
      actions := [a] + rest;
      LegalFirst(s, a, rest);
      AdvancesFirst(a, rest);
    } else {
      actions := [];
      forall pid | pid in s.procs ensures s.procs[pid].pc.Finished? {
        assert !Unfinished(s, pid);
      }
    }
  }
}
