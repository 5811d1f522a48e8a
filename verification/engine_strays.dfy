/** The temporaries of `.revision` that lie in the tree, and those a snapshot shows, after every action. */
module EngineStrays {
  import opened Wrappers
  import opened Documents
  import opened Storage
  import opened Recovery
  import opened Requests
  import opened LockTable
  import opened Engine
  import opened EngineLocks
  import opened EngineHistory
  import opened EngineSteps

  // ---- the invariant ----

  /** A snapshot shows the temporaries that were left when it was taken: all from before its call, and no other. */
  ghost predicate SightOk(torn: seq<Temp>, p: Proc) {
    && p.tears <= |torn|
    && (p.outcome.Saw? ==>
          exists k :: p.tears <= k <= |torn| && TempsIn(p.outcome.version.files) == LeftBy(torn[..k]))
  }

  /** The temporaries on disk are those left behind and the one now awaiting its renaming. */
  ghost predicate Littered(d: Disk, torn: seq<Temp>, open: seq<Temp>) {
    d.strays == LeftBy(torn + open) && DistinctTemps(torn + open)
  }

  ghost predicate ScriptsWrite(s: State) {
    && (s.boot.Recovering? ==> Writes(s.disk, s.boot.script, OpenOf(s.boot.script)))
    && (forall pid :: pid in s.procs && s.procs[pid].pc.Publishing? ==>
          Writes(s.disk, s.procs[pid].pc.script, OpenOf(s.procs[pid].pc.script)))
  }

  ghost predicate StrayInv(s: State) {
    && Littered(s.disk, s.torn, Opened(s)) && ScriptsWrite(s)
    && forall pid :: pid in s.procs ==> SightOk(s.torn, s.procs[pid])
  }

  // ---- scripts ----

  /** What a script needs of the disk is that its temporary is new. */
  lemma {:induction false} WritesElsewhere(d: Disk, e: Disk, steps: seq<Step>, open: seq<Temp>)
    requires Writes(d, steps, open) && d.strays == e.strays
    ensures Writes(e, steps, open)
    decreases |steps|
  {
    if steps != [] {
      var next := match steps[0] case OpenTemp(_, temp) => [temp] case _ => [];
      WritesElsewhere(Exec(d, steps[0]), Exec(e, steps[0]), steps[1..], next);
    }
  }

  lemma NothingOpenYet(d: Disk, steps: seq<Step>)
    requires Writes(d, steps, [])
    ensures OpenOf(steps) == []
  {
  }

  lemma LeftBySnoc(torn: seq<Temp>, temp: Temp)
    ensures LeftBy(torn + [temp]) == LeftBy(torn)[temp.Path() := temp.held]
  {
    assert (torn + [temp])[..|torn|] == torn;
  }

  lemma NewTempIsDistinct(torn: seq<Temp>, temp: Temp)
    requires DistinctTemps(torn)
    ensures DistinctTemps(torn + [temp]) <==> temp.Path() !in LeftBy(torn)
  {
    LeftByAre(torn);
    if temp.Path() in LeftBy(torn) {
      var i :| 0 <= i < |torn| && torn[i].Path() == temp.Path();
      assert (torn + [temp])[i].Path() == (torn + [temp])[|torn|].Path();
    }
  }

  lemma DistinctFront(torn: seq<Temp>, temp: Temp)
    requires DistinctTemps(torn + [temp])
    ensures DistinctTemps(torn)
  {
    forall i, j | 0 <= i < j < |torn| ensures torn[i].Path() != torn[j].Path() {
      assert (torn + [temp])[i] == torn[i] && (torn + [temp])[j] == torn[j];
    }
  }

  lemma Untear(d: Disk, torn: seq<Temp>, temp: Temp)
    requires Littered(d, torn, [temp])
    ensures DistinctTemps(torn) && d.strays - {temp.Path()} == LeftBy(torn)
  {
    DistinctFront(torn, temp);
    NewTempIsDistinct(torn, temp);
    LeftBySnoc(torn, temp);
  }

  lemma OpenStep(d: Disk, steps: seq<Step>, torn: seq<Temp>)
    requires steps != [] && steps[0].OpenTemp? && Writes(d, steps, OpenOf(steps)) && Littered(d, torn, OpenOf(steps))
    ensures Writes(Exec(d, steps[0]), steps[1..], OpenOf(steps[1..]))
    ensures Littered(Exec(d, steps[0]), torn, OpenOf(steps[1..]))
  {
    var temp := steps[0].temp;
    assert torn + [] == torn;
    assert OpenOf(steps[1..]) == [temp];
    NewTempIsDistinct(torn, temp);
    LeftBySnoc(torn, temp);
  }

  lemma RenameStep(d: Disk, steps: seq<Step>, torn: seq<Temp>)
    requires steps != [] && steps[0].PutRevision? && Writes(d, steps, OpenOf(steps)) && Littered(d, torn, OpenOf(steps))
    ensures Writes(Exec(d, steps[0]), steps[1..], OpenOf(steps[1..]))
    ensures Littered(Exec(d, steps[0]), torn, OpenOf(steps[1..]))
  {
    Untear(d, torn, steps[0].temp);
    NothingOpenYet(Exec(d, steps[0]), steps[1..]);
    assert torn + [] == torn;
  }

  /** One step of a script keeps account of the temporaries. */
  lemma WriteStep(d: Disk, steps: seq<Step>, torn: seq<Temp>)
    requires steps != [] && Writes(d, steps, OpenOf(steps)) && Littered(d, torn, OpenOf(steps))
    ensures Writes(Exec(d, steps[0]), steps[1..], OpenOf(steps[1..]))
    ensures Littered(Exec(d, steps[0]), torn, OpenOf(steps[1..]))
  {
    if steps[0].OpenTemp? {
      OpenStep(d, steps, torn);
    } else if steps[0].PutRevision? {
      RenameStep(d, steps, torn);
    } else {
      NothingOpenYet(Exec(d, steps[0]), steps[1..]);
    }
  }

  // ---- who has one open ----

  lemma OnlyThePublisher(s: State)
    requires PubOk(s) && !s.boot.Recovering?
    ensures (forall x :: x in s.procs ==> !s.procs[x].pc.Publishing?) ==> Opened(s) == []
    ensures forall x :: x in s.procs && s.procs[x].pc.Publishing? ==> Opened(s) == OpenOf(s.procs[x].pc.script)
  {
    forall x | x in s.procs && s.procs[x].pc.Publishing?
      ensures Opened(s) == OpenOf(s.procs[x].pc.script)
    {
      assert Heads(s.pub, x);
    }
  }

  /** A move of one call that neither was nor is publishing opens and renames nothing. */
  lemma SameOpened(s: State, t: State, pid: Pid)
    requires PubOk(s) && PubOk(t) && t.boot == s.boot && pid in s.procs && pid in t.procs
    requires t.procs == s.procs[pid := t.procs[pid]] && !s.procs[pid].pc.Publishing? && !t.procs[pid].pc.Publishing?
    ensures Opened(t) == Opened(s)
  {
    if !s.boot.Recovering? {
      OnlyThePublisher(s);
      OnlyThePublisher(t);
      if x :| x in s.procs && s.procs[x].pc.Publishing? {
        assert t.procs[x] == s.procs[x];
      } else {
        forall x | x in t.procs ensures !t.procs[x].pc.Publishing? {
          assert x != pid ==> t.procs[x] == s.procs[x];
        }
      }
    }
  }

  /** A move of one call that is not publishing, before or after, and touches no temporary. */
  lemma MoveLeavesStrays(s: State, t: State, pid: Pid)
    requires StrayInv(s) && PubOk(s) && PubOk(t) && t.boot == s.boot && pid in s.procs && pid in t.procs
    requires t.procs == s.procs[pid := t.procs[pid]] && !s.procs[pid].pc.Publishing? && !t.procs[pid].pc.Publishing?
    requires t.disk.strays == s.disk.strays && t.torn == s.torn && SightOk(t.torn, t.procs[pid])
    ensures StrayInv(t)
  {
    SameOpened(s, t, pid);
    OthersStillWrite(s, t, pid);
    forall x | x in t.procs ensures SightOk(t.torn, t.procs[x]) {
      assert x != pid ==> t.procs[x] == s.procs[x];
    }
  }

  lemma OthersStillWrite(s: State, t: State, pid: Pid)
    requires ScriptsWrite(s) && t.boot == s.boot && t.disk.strays == s.disk.strays
    requires pid in s.procs && pid in t.procs && t.procs == s.procs[pid := t.procs[pid]]
    requires t.procs[pid].pc.Publishing? ==>
               Writes(t.disk, t.procs[pid].pc.script, OpenOf(t.procs[pid].pc.script))
    ensures ScriptsWrite(t)
  {
    if s.boot.Recovering? {
      WritesElsewhere(s.disk, t.disk, s.boot.script, OpenOf(s.boot.script));
    }
    forall x | x in t.procs && t.procs[x].pc.Publishing?
      ensures Writes(t.disk, t.procs[x].pc.script, OpenOf(t.procs[x].pc.script))
    {
      if x != pid {
        assert t.procs[x] == s.procs[x];
        WritesElsewhere(s.disk, t.disk, s.procs[x].pc.script, OpenOf(s.procs[x].pc.script));
      }
    }
  }

  // ---- actions ----

  /** The steps of a call that are neither looks nor publications. */
  predicate Apart(pc: Pc) {
    !pc.Looking? && !pc.Entering? && !pc.Publishing? && !pc.Finished?
  }

  /** `t` is `s` after a move of `pid` that touched no temporary and showed none. */
  ghost predicate Aside(s: State, t: State, pid: Pid)
    requires pid in s.procs
  {
    && t.disk.strays == s.disk.strays && t.torn == s.torn && t.boot == s.boot && pid in t.procs
    && t.procs == s.procs[pid := t.procs[pid]] && t.procs[pid].tears == s.procs[pid].tears
    && (t.procs[pid].outcome.Saw? ==> t.procs[pid].outcome == s.procs[pid].outcome)
  }

  lemma LocksAside(s: State, pid: Pid)
    requires CanAdvance(s, pid)
    ensures s.procs[pid].pc.Booting? ==> Aside(s, Start(s, pid), pid) && !Start(s, pid).procs[pid].pc.Publishing?
    ensures s.procs[pid].pc.Acquiring? ==> Aside(s, Acquire(s, pid), pid) && !Acquire(s, pid).procs[pid].pc.Publishing?
    ensures s.procs[pid].pc.Releasing? ==> Aside(s, Release(s, pid), pid) && !Release(s, pid).procs[pid].pc.Publishing?
  {
  }

  lemma ReadsAside(s: State, pid: Pid)
    requires CanAdvance(s, pid)
    ensures s.procs[pid].pc.Checking? ==> Aside(s, Check(s, pid), pid) && !Check(s, pid).procs[pid].pc.Publishing?
    ensures s.procs[pid].pc.Reading? ==> Aside(s, Read(s, pid), pid) && !Read(s, pid).procs[pid].pc.Publishing?
  {
  }

  lemma StagesAside(s: State, pid: Pid, tx: TxId)
    requires CanAdvance(s, pid)
    ensures s.procs[pid].pc.Comparing? ==>
              Aside(s, Compare(s, pid, tx), pid) && !Compare(s, pid, tx).procs[pid].pc.Publishing?
    ensures s.procs[pid].pc.Staging? ==>
              var t := Stage(s, pid, s.procs[pid].pc.j);
              Aside(s, t, pid) && !t.procs[pid].pc.Publishing?
  {
  }

  lemma ApartStays(s: State, pid: Pid, tx: TxId, how: Manner)
    requires CanAdvance(s, pid) && Apart(s.procs[pid].pc)
    ensures Aside(s, Go(s, pid, tx, how), pid) && !Go(s, pid, tx, how).procs[pid].pc.Publishing?
  {
    LocksAside(s, pid);
    ReadsAside(s, pid);
    StagesAside(s, pid, tx);
  }

  lemma ApartLeaves(s: State, pid: Pid, tx: TxId, how: Manner)
    requires StrayInv(s) && PubOk(s) && CanAdvance(s, pid) && Apart(s.procs[pid].pc)
    requires PubOk(Go(s, pid, tx, how))
    ensures StrayInv(Go(s, pid, tx, how))
  {
    ApartStays(s, pid, tx, how);
    MoveLeavesStrays(s, Go(s, pid, tx, how), pid);
  }

  lemma LookLeaves(s: State, pid: Pid)
    requires StrayInv(s) && PubOk(s) && DiskInv(s) && CanAdvance(s, pid) && s.procs[pid].pc.Looking?
    requires PubOk(Look(s, pid))
    ensures StrayInv(Look(s, pid))
  {
    var t := Look(s, pid);
    if !s.broken {
      LiveFilesAreLast(s, pid);
      OnePublisher(s, pid);
      OnlyThePublisher(s);
      BesideSplits(s.disk.files, s.disk.strays);
      assert s.torn + [] == s.torn && s.torn[..|s.torn|] == s.torn;
    }
    MoveLeavesStrays(s, t, pid);
  }

  lemma EnterStays(s: State, pid: Pid, how: Manner)
    requires CanAdvance(s, pid) && s.procs[pid].pc.Entering?
    ensures Aside(s, Enter(s, pid, how), pid)
  {
  }

  lemma EnterWrites(s: State, pid: Pid, how: Manner)
    requires CanAdvance(s, pid) && s.procs[pid].pc.Entering? && how.temp.Path() !in s.disk.strays
    ensures
      var t := Enter(s, pid, how);
      pid in t.procs
      && (t.procs[pid].pc.Publishing? ==> Writes(t.disk, t.procs[pid].pc.script, []) && OpenOf(t.procs[pid].pc.script) == [])
  {
    var p, t := s.procs[pid], Enter(s, pid, how);
    if t.procs[pid].pc.Publishing? {
      if p.tx.Some? {
        SweepIsPlain(p.tx.value, how.order);
        PlainWrites(t.disk, SweepScript(p.tx.value, how.order));
        var it := Intent(s.disk.revision + 1, TargetsOf(Changed(p.Muts(), p.current)));
        FinishWrites(Exec(s.disk, PutIntent(p.tx.value, it)), p.tx.value, it, how);
      }
      NothingOpenYet(t.disk, t.procs[pid].pc.script);
    }
  }

  lemma EnterLeaves(s: State, pid: Pid, how: Manner)
    requires StrayInv(s) && PubOk(s) && s.boot.Up? && CanAdvance(s, pid) && s.procs[pid].pc.Entering?
    requires PubOk(Enter(s, pid, how)) && how.temp.Path() !in s.disk.strays
    ensures StrayInv(Enter(s, pid, how))
  {
    var t := Enter(s, pid, how);
    EnterStays(s, pid, how);
    EnterWrites(s, pid, how);
    OnePublisher(s, pid);
    OnlyThePublisher(s);
    OnlyThePublisher(t);
    OthersStillWrite(s, t, pid);
    forall x | x in t.procs ensures SightOk(t.torn, t.procs[x]) {
      assert x != pid ==> t.procs[x] == s.procs[x];
    }
  }

  lemma ProceedLeaves(s: State, pid: Pid)
    requires StrayInv(s) && PubOk(s) && CanAdvance(s, pid) && s.procs[pid].pc.Publishing? && s.boot.Up?
    requires
      var t := Proceed(s, pid, s.procs[pid].pc.script, s.procs[pid].pc.result);
      PubOk(t) && !s.procs[pid].pc.result.Saw?
    ensures StrayInv(Proceed(s, pid, s.procs[pid].pc.script, s.procs[pid].pc.result))
  {
    var script := s.procs[pid].pc.script;
    var t := Proceed(s, pid, script, s.procs[pid].pc.result);
    OnePublisher(s, pid);
    OnlyThePublisher(s);
    OnlyThePublisher(t);
    if script != [] {
      WriteStep(s.disk, script, s.torn);
    }
    forall x | x in t.procs ensures SightOk(t.torn, t.procs[x]) {
      assert x != pid ==> t.procs[x] == s.procs[x];
    }
  }

  /** A snapshot taken stays accounted for as more temporaries are left. */
  lemma SightStays(torn: seq<Temp>, more: seq<Temp>, p: Proc)
    requires SightOk(torn, p)
    ensures SightOk(torn + more, p)
  {
    if p.outcome.Saw? {
      var k :| p.tears <= k <= |torn| && TempsIn(p.outcome.version.files) == LeftBy(torn[..k]);
      assert (torn + more)[..k] == torn[..k];
    }
  }

  lemma CleanUpLeaves(s: State, script: seq<Step>, harm: bool)
    requires Littered(s.disk, s.torn, OpenOf(script)) && !s.boot.Recovering? && PubOk(s)
    requires forall x :: x in s.procs ==> !s.procs[x].pc.Publishing? && SightOk(s.torn, s.procs[x])
    ensures StrayInv(CleanUp(s, script, harm))
  {
    var t := CleanUp(s, script, harm);
    OnlyThePublisher(s);
    assert Opened(t) == Opened(s) == [];
    assert t.torn + [] == t.torn;
    if OpenOf(script) != [] {
      Untear(s.disk, s.torn, OpenOf(script)[0]);
    }
    forall x | x in t.procs ensures SightOk(t.torn, t.procs[x]) {
      SightStays(s.torn, OpenOf(script), s.procs[x]);
    }
  }

  lemma ThrowLeaves(s: State, pid: Pid, harm: bool)
    requires StrayInv(s) && PubOk(s) && CanFail(s, pid) && s.boot.Up?
    requires PubOk(Throw(s, pid, harm))
    ensures StrayInv(Throw(s, pid, harm))
  {
    if s.procs[pid].pc.Publishing? {
      var u := Thrown(s, pid, harm);
      OnePublisher(s, pid);
      OnlyThePublisher(s);
      assert PubOk(u) by {
        assert u.pub == Throw(s, pid, harm).pub && u.procs == Throw(s, pid, harm).procs;
      }
      CleanUpLeaves(u, s.procs[pid].pc.script, harm);
    } else {
      MoveLeavesStrays(s, Throw(s, pid, harm), pid);
    }
  }

  /** While the process is not up nobody publishes. */
  lemma NobodyPublishes(s: State)
    requires DiskInv(s) && !s.boot.Up?
    ensures forall x :: x in s.procs ==> !s.procs[x].pc.Publishing?
  {
  }

  lemma CrashLeaves(s: State)
    requires StrayInv(s)
    ensures StrayInv(Do(s, Crash))
  {
    var t := Do(s, Crash);
    assert Opened(t) == [] && t.torn + [] == t.torn;
  }

  lemma RestartLeaves(s: State, listing: seq<Entry>)
    requires StrayInv(s) && DiskInv(s) && PubOk(s) && Enabled(s, Restart(listing))
    ensures StrayInv(Do(s, Restart(listing)))
  {
    NobodyPublishes(s);
    RecoverWrites(s.disk, listing);
    NothingOpenYet(s.disk, RecoverScript(s.disk, listing));
  }

  lemma RecoverLeaves(s: State)
    requires StrayInv(s) && DiskInv(s) && PubOk(s) && s.boot.Recovering?
    ensures StrayInv(Do(s, Recover))
  {
    NobodyPublishes(s);
    if s.boot.script != [] {
      WriteStep(s.disk, s.boot.script, s.torn);
    }
  }

  lemma GaveUpLeaves(s: State, harm: bool)
    requires StrayInv(s) && PubOk(s) && s.boot.Recovering? && forall x :: x in s.procs ==> !s.procs[x].pc.Publishing?
    ensures StrayInv(Do(s, RecoverFails(harm)))
  {
    var u := s.(boot := Wedged);
    assert PubOk(u) && Opened(s) == OpenOf(s.boot.script);
    CleanUpLeaves(u, s.boot.script, harm);
  }

  lemma ArriveLeaves(s: State, pid: Pid, call: Call, order: seq<Path>)
    requires StrayInv(s) && PubOk(s) && Enabled(s, Arrive(pid, call, order))
    ensures StrayInv(Do(s, Arrive(pid, call, order)))
  {
    var t := Do(s, Arrive(pid, call, order));
    assert pid !in s.pub;
    assert Opened(t) == Opened(s);
    forall x | x in t.procs ensures SightOk(t.torn, t.procs[x]) {
      assert x != pid ==> t.procs[x] == s.procs[x];
    }
  }

  lemma AdvanceLeaves(s: State, pid: Pid, tx: TxId, how: Manner)
    requires StrayInv(s) && Inv(s) && Enabled(s, Advance(pid, tx, how))
    requires PubOk(Go(s, pid, tx, how))
    ensures StrayInv(Go(s, pid, tx, how))
  {
    if Apart(s.procs[pid].pc) {
      ApartLeaves(s, pid, tx, how);
    } else {
      UpInBody(s, pid);
      if s.procs[pid].pc.Looking? {
        LookLeaves(s, pid);
      } else if s.procs[pid].pc.Entering? {
        EnterLeaves(s, pid, how);
      } else {
        NeverPublishesSight(s, pid);
        ProceedLeaves(s, pid);
      }
    }
  }

  /** What a publication answers is never a snapshot. */
  lemma NeverPublishesSight(s: State, pid: Pid)
    requires Inv(s) && pid in s.procs && s.procs[pid].pc.Publishing?
    ensures !s.procs[pid].pc.result.Saw?
  {
    var p := s.procs[pid];
    assert ProcInv(s, pid) && PointOk(p, s.table.wants[pid]);
  }

  /** Every action keeps account of the temporaries. */
  lemma ActionLeaves(s: State, a: Action)
    requires Inv(s) && StrayInv(s) && Enabled(s, a)
    ensures StrayInv(Do(s, a))
  {
    LocksKept(s, a);
    match a
    case Arrive(pid, call, order) => ArriveLeaves(s, pid, call, order);
    case Advance(pid, tx, how) => AdvanceLeaves(s, pid, tx, how);
    case Fail(pid, harm) =>
      UpInBody(s, pid);
      ThrowLeaves(s, pid, harm);
    case Crash => CrashLeaves(s);
    case Restart(listing) => RestartLeaves(s, listing);
    case Recover => RecoverLeaves(s);
    case RecoverFails(harm) =>
      NobodyPublishes(s);
      GaveUpLeaves(s, harm);
  }
}
