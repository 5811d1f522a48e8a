/** Journal directories: a call that was answered has left none behind, and neither has one that failed cleanly. */
module EngineTidy {
  import opened Wrappers
  import opened Documents
  import opened Storage
  import opened Recovery
  import opened Requests
  import opened LockTable
  import opened Engine
  import opened EngineTheorems

  /** No step but a new transaction's first makes a directory. */
  lemma StepsMakeNone(d: Disk, step: Step)
    ensures Exec(d, step).dirs.Keys <= d.dirs.Keys
  {
  }

  /** What is left to do ends with removing the directory, or has. */
  ghost predicate Ends(script: seq<Step>, id: TxId, d: Disk) {
    if script == [] then id !in d.dirs else script[|script| - 1] == RemoveDir(id)
  }

  ghost predicate CallTidy(p: Proc, d: Disk) {
    match p.pc
    case Staging(_) | Entering => true
    case Publishing(script, _) => p.tx.Some? ==> Ends(script, p.tx.value, d)
    case Releasing | Finished => p.tx.Some? && !p.outcome.Failed? ==> p.tx.value !in d.dirs
    case _ => p.tx == None
  }

  ghost predicate Tidy(s: State) {
    forall pid :: pid in s.procs ==> CallTidy(s.procs[pid], s.disk)
  }

  lemma {:induction false} SweepEnds(id: TxId, order: seq<Item>)
    ensures SweepScript(id, order) != [] && SweepScript(id, order)[|SweepScript(id, order)| - 1] == RemoveDir(id)
  {
    if order != [] {
      SweepEnds(id, order[1..]);
    }
  }

  lemma StillTidy(p: Proc, d: Disk, d': Disk)
    requires CallTidy(p, d) && forall id :: id in d'.dirs && p.tx == Some(id) ==> id in d.dirs
    ensures CallTidy(p, d')
  {
  }

  /** Whatever one call does to the disk, the others' directories do not come back. */
  lemma OthersTidy(s: State, t: State, pid: Pid)
    requires Tidy(s) && forall q :: q in t.procs && q != pid ==> q in s.procs && t.procs[q] == s.procs[q]
    requires forall q, id :: q in s.procs && q != pid && s.procs[q].tx == Some(id) && id in t.disk.dirs ==> id in s.disk.dirs
    requires pid in t.procs ==> CallTidy(t.procs[pid], t.disk)
    ensures Tidy(t)
  {
    forall q | q in t.procs ensures CallTidy(t.procs[q], t.disk) {
      if q != pid {
        StillTidy(s.procs[q], s.disk, t.disk);
      }
    }
  }

  lemma EnterTidy(s: State, pid: Pid, how: Manner)
    requires Tidy(s) && CanAdvance(s, pid) && s.procs[pid].pc.Entering?
    ensures Tidy(Enter(s, pid, how))
  {
    var p, t := s.procs[pid], Enter(s, pid, how);
    if p.tx.Some? {
      SweepEnds(p.tx.value, how.order);
      var it := Intent(s.disk.revision + 1, TargetsOf(Changed(p.call.req.muts, p.current)));
      StepsMakeNone(s.disk, PutIntent(p.tx.value, it));
    }
    OthersTidy(s, t, pid);
  }

  lemma ProceedTidy(s: State, pid: Pid, script: seq<Step>, result: Outcome)
    requires Tidy(s) && CanAdvance(s, pid) && s.procs[pid].pc == Publishing(script, result)
    ensures Tidy(Proceed(s, pid, script, result))
  {
    if script != [] {
      StepsMakeNone(s.disk, script[0]);
    }
    OthersTidy(s, Proceed(s, pid, script, result), pid);
  }

  lemma CompareTidy(s: State, pid: Pid, tx: TxId)
    requires Tidy(s) && CanAdvance(s, pid) && s.procs[pid].pc.Comparing? && Fresh(s, tx)
    ensures Tidy(Compare(s, pid, tx))
  {
    OthersTidy(s, Compare(s, pid, tx), pid);
  }

  lemma StageTidy(s: State, pid: Pid, j: nat)
    requires Tidy(s) && CanAdvance(s, pid) && s.procs[pid].pc == Staging(j)
    ensures Tidy(Stage(s, pid, j))
  {
    OthersTidy(s, Stage(s, pid, j), pid);
  }

  lemma AdvanceTidy(s: State, pid: Pid, tx: TxId, how: Manner)
    requires Tidy(s) && Enabled(s, Advance(pid, tx, how))
    ensures Tidy(Go(s, pid, tx, how))
  {
    match s.procs[pid].pc
    case Entering => EnterTidy(s, pid, how);
    case Publishing(script, result) => ProceedTidy(s, pid, script, result);
    case Comparing => CompareTidy(s, pid, tx);
    case Staging(j) => StageTidy(s, pid, j);
    case Finished => assert false;
    case _ => OthersTidy(s, Go(s, pid, tx, how), pid);
  }

  lemma ThrowTidy(s: State, pid: Pid, harm: bool)
    requires Tidy(s) && CanFail(s, pid)
    ensures Tidy(Throw(s, pid, harm))
  {
    OthersTidy(s, Throw(s, pid, harm), pid);
  }

  lemma ActionTidies(s: State, a: Action)
    requires Tidy(s) && Enabled(s, a)
    ensures Tidy(Do(s, a))
  {
    match a
    case Arrive(pid, call, order) => OthersTidy(s, Do(s, a), pid);
    case Advance(pid, tx, how) => AdvanceTidy(s, pid, tx, how);
    case Fail(pid, harm) => ThrowTidy(s, pid, harm);
    case Crash =>
    case Restart(_) =>
    case Recover =>
      if s.boot.script != [] {
        StepsMakeNone(s.disk, s.boot.script[0]);
        forall q | q in s.procs ensures CallTidy(s.procs[q], Do(s, a).disk) {
          StillTidy(s.procs[q], s.disk, Do(s, a).disk);
        }
      }
    case RecoverFails(_) =>
  }

  lemma {:induction false} RunTidies(s: State, actions: seq<Action>)
    requires Tidy(s) && Legal(s, actions)
    ensures Tidy(After(s, actions))
    decreases |actions|
  {
    if actions != [] {
      ActionTidies(s, actions[0]);
      RunTidies(Do(s, actions[0]), actions[1..]);
    }
  }

  /**
   * Over every run: a call that has been answered (written, conflict or any other answer but a failure)
   * has left no journal directory behind, and one that fails while staging takes its own with it,
   * unless that fails too.
   */
  lemma NothingLeftStaged(s: State, actions: seq<Action>, pid: Pid)
    requires Init(s) && Legal(s, actions) && pid in After(s, actions).procs
    ensures
      var t := After(s, actions);
      var p := t.procs[pid];
      && ((p.pc.Releasing? || p.pc.Finished?) && !p.outcome.Failed? && p.tx.Some? ==> p.tx.value !in t.disk.dirs)
      && (p.pc.Staging? && p.tx.Some? && CanFail(t, pid) ==> p.tx.value !in Do(t, Fail(pid, false)).disk.dirs)
  {
    RunTidies(s, actions);
    assert CallTidy(After(s, actions).procs[pid], After(s, actions).disk);
  }
}
