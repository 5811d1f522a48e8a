/** What becomes of one call that has the engine to itself, and of one recovery. */
module EngineSolo {
  import opened Wrappers
  import opened Documents
  import opened Storage
  import opened Recovery
  import opened Requests
  import opened LockTable
  import opened Engine
  import opened EngineLocks
  import opened EngineHistory
  import opened EngineSteps
  import opened EngineStrays
  import opened EngineTheorems
  import opened EngineProgress

  /** A healthy engine in which every other call is over. */
  ghost predicate Alone(s: State, pid: Pid) {
    s.boot.Up? && !s.broken && forall x :: x in s.procs && x != pid ==> s.procs[x].pc.Finished?
  }

  ghost predicate AtRest(s: State) {
    s.boot.Up? && !s.broken && forall x :: x in s.procs ==> s.procs[x].pc.Finished?
  }

  lemma RestingDisk(s: State)
    requires Inv(s) && StrayInv(s) && AtRest(s)
    ensures Quiet(s.disk) && Version(s.disk.revision, s.disk.files) == s.Last()
    ensures s.disk.strays == LeftBy(s.torn) && NoDots(s.disk.files)
  {
    OnlyThePublisher(s);
    assert s.torn + [] == s.torn;
  }

  lemma OnlyItCan(s: State, pid: Pid, a: Action)
    requires Alone(s, pid) && Enabled(s, a) && a.Advance?
    ensures a.pid == pid
  {
  }

  // ---- one write ----

  /** One new file, asked for without preconditions. */
  function WriteOf(m: Mutation): Call {
    WriteMany(Request([m], [], []))
  }

  ghost predicate Writable(v: Version, m: Mutation) {
    && m.content.Some? && m.expected.Anything? && m.valid && !DotFile(m.path) && m.path !in v.files
    && v.revision + 1 <= MAX_SAFE_INTEGER
  }

  /** The call that found the engine as it is in `s` is on its way, or has written the file. */
  ghost predicate Writing(s: State, t: State, pid: Pid, m: Mutation) {
    && Alone(t, pid) && pid in t.procs && t.procs[pid].call == WriteOf(m)
    && match t.procs[pid].pc
       case Refusing | Looking => false
       case Publishing(_, result) => result.Written? && Wrote(s, t, pid, m)
       case Releasing | Finished => t.procs[pid].outcome.Written? && Wrote(s, t, pid, m)
       case _ => t.versions == s.versions && t.commits == s.commits
  }

  predicate Wrote(s: State, t: State, pid: Pid, m: Mutation) {
    t.commits == s.commits + [Commit(pid, Request([m], [], []))]
  }

  lemma WritingLocks(s: State, t: State, pid: Pid, m: Mutation)
    requires Writing(s, t, pid, m) && CanAdvance(t, pid) && m.valid
    ensures t.procs[pid].pc.Booting? ==> Writing(s, Start(t, pid), pid, m)
    ensures t.procs[pid].pc.Acquiring? ==> Writing(s, Acquire(t, pid), pid, m)
    ensures t.procs[pid].pc.Checking? ==> Writing(s, Check(t, pid), pid, m)
    ensures t.procs[pid].pc.Reading? ==> Writing(s, Read(t, pid), pid, m)
  {
  }

  lemma WritingStages(s: State, t: State, pid: Pid, m: Mutation, tx: TxId)
    requires s.versions != [] && Writing(s, t, pid, m) && Here(t, pid) && Writable(s.Last(), m)
    ensures t.procs[pid].pc.Comparing? ==> Writing(s, Compare(t, pid, tx), pid, m)
    ensures t.procs[pid].pc.Staging? ==> Writing(s, Stage(t, pid, t.procs[pid].pc.j), pid, m)
  {
    var p := t.procs[pid];
    if p.pc.Comparing? {
      assert p.current[0] == EtagAt(s.Last().files, m.path) == None;
      assert p.Muts() == [m] && Changed([m], p.current) != [];
    }
  }

  lemma WritingEnters(s: State, t: State, pid: Pid, m: Mutation, how: Manner)
    requires s.versions != [] && Writing(s, t, pid, m) && Here(t, pid) && Writable(s.Last(), m)
    requires t.procs[pid].pc.Entering? && t.disk.revision == s.Last().revision
    ensures Writing(s, Enter(t, pid, how), pid, m)
  {
    var p := t.procs[pid];
    assert p.current[0] == EtagAt(s.Last().files, m.path) == None;
    assert p.Muts() == [m] && Changed([m], p.current) != [];
    EnterCommits(t, pid, how);
  }

  lemma WritingEnds(s: State, t: State, pid: Pid, m: Mutation)
    requires Writing(s, t, pid, m) && CanAdvance(t, pid)
    ensures t.procs[pid].pc.Publishing? ==>
              Writing(s, Proceed(t, pid, t.procs[pid].pc.script, t.procs[pid].pc.result), pid, m)
    ensures t.procs[pid].pc.Releasing? ==> Writing(s, Release(t, pid), pid, m)
  {
  }

  lemma WritingStep(s: State, t: State, pid: Pid, m: Mutation, tx: TxId, how: Manner)
    requires s.versions != [] && Inv(t) && Writing(s, t, pid, m) && Writable(s.Last(), m)
    requires Enabled(t, Advance(pid, tx, how))
    ensures Writing(s, Go(t, pid, tx, how), pid, m)
  {
    assert Here(t, pid);
    WritingLocks(s, t, pid, m);
    WritingStages(s, t, pid, m, tx);
    WritingEnds(s, t, pid, m);
    if t.procs[pid].pc.Entering? {
      LiveFilesAreLast(t, pid);
      WritingEnters(s, t, pid, m, how);
    }
  }

  lemma WritingMove(s: State, t: State, pid: Pid, m: Mutation, a: Action)
    requires s.versions != [] && Inv(t) && Writing(s, t, pid, m) && Writable(s.Last(), m) && Enabled(t, a) && a.Advance?
    ensures Inv(Do(t, a)) && Writing(s, Do(t, a), pid, m) && Do(t, a).torn == t.torn
  {
    OnlyItCan(t, pid, a);
    ActionKeeps(t, a);
    WritingStep(s, t, pid, m, a.tx, a.how);
    TornStays(t, pid, a.tx, a.how);
  }

  lemma FirstOf(t: State, actions: seq<Action>)
    requires actions != [] && Legal(t, actions) && AdvancesOnly(actions)
    ensures Enabled(t, actions[0]) && actions[0].Advance?
    ensures Legal(Do(t, actions[0]), actions[1..]) && AdvancesOnly(actions[1..])
    ensures After(t, actions) == After(Do(t, actions[0]), actions[1..])
  {
  }

  lemma {:induction false} WritingRuns(s: State, t: State, pid: Pid, m: Mutation, actions: seq<Action>)
    requires s.versions != [] && Inv(t) && Writing(s, t, pid, m) && Writable(s.Last(), m)
    requires Legal(t, actions) && AdvancesOnly(actions)
    ensures Writing(s, After(t, actions), pid, m) && After(t, actions).torn == t.torn
    decreases |actions|
  {
    if actions != [] {
      FirstOf(t, actions);
      WritingMove(s, t, pid, m, actions[0]);
      WritingRuns(s, Do(t, actions[0]), pid, m, actions[1..]);
    }
  }

  lemma Arrives(s: State, pid: Pid, call: Call, order: seq<Path>)
    requires AtRest(s) && Enabled(s, Arrive(pid, call, order))
    ensures
      var t := Do(s, Arrive(pid, call, order));
      && Alone(t, pid) && t.procs.Keys == s.procs.Keys + {pid} && t.torn == s.torn
      && t.disk == s.disk && t.versions == s.versions && t.commits == s.commits
      && t.procs[pid].call == call && t.procs[pid].pc.Booting?
  {
  }

  /** From its arrival on the call can run to its end. */
  lemma OneCall(s: State, pid: Pid) returns (actions: seq<Action>)
    requires Inv(s) && StrayInv(s) && Alone(s, pid) && pid in s.procs
    ensures Legal(s, actions) && AdvancesOnly(actions)
    ensures
      var t := After(s, actions);
      && Inv(t) && StrayInv(t) && t.procs.Keys == s.procs.Keys && t.procs[pid].pc.Finished?
      && s.versions <= t.versions && s.commits <= t.commits
  {
    actions := AllCanFinish(s);
    RunKeepsInv(s, actions);
    RunKeepsStrays(s, actions);
    KeysStay(s, actions);
    HistoryOnlyGrows(s, actions);
  }

  lemma WriteAlone(s: State, pid: Pid, m: Mutation) returns (rest: seq<Action>)
    requires Inv(s) && StrayInv(s) && AtRest(s) && pid !in s.procs && Writable(s.Last(), m)
    ensures Enabled(s, Arrive(pid, WriteOf(m), [m.path]))
    ensures Legal(Do(s, Arrive(pid, WriteOf(m), [m.path])), rest) && AdvancesOnly(rest)
    ensures
      var t := After(Do(s, Arrive(pid, WriteOf(m), [m.path])), rest);
      Inv(t) && StrayInv(t) && WrittenAlone(s, t, pid, m)
  {
    var arrive := Arrive(pid, WriteOf(m), [m.path]);
    assert [m][0].path == m.path;
    Arrives(s, pid, WriteOf(m), [m.path]);
    ActionKeeps(s, arrive);
    ActionLeaves(s, arrive);
    var u := Do(s, arrive);
    rest := OneCall(u, pid);
    WritingRuns(s, u, pid, m, rest);
    WroteIs(s, After(u, rest), pid, m);
  }

  /** The call can run to its end, and then the database is the old one and the new file. */
  lemma OneWrite(s: State, pid: Pid, m: Mutation) returns (actions: seq<Action>)
    requires Inv(s) && StrayInv(s) && AtRest(s) && pid !in s.procs && Writable(s.Last(), m)
    ensures Legal(s, actions) && Crash !in actions && WrittenAlone(s, After(s, actions), pid, m)
  {
    var arrive := Arrive(pid, WriteOf(m), [m.path]);
    var rest := WriteAlone(s, pid, m);
    ArriveThen(s, arrive, rest);
    actions := [arrive] + rest;
  }

  lemma ArriveThen(s: State, arrive: Action, rest: seq<Action>)
    requires arrive.Arrive? && Enabled(s, arrive) && Legal(Do(s, arrive), rest) && AdvancesOnly(rest)
    ensures Legal(s, [arrive] + rest) && Crash !in [arrive] + rest
    ensures After(s, [arrive] + rest) == After(Do(s, arrive), rest)
  {
    LegalFirst(s, arrive, rest);
  }

  ghost predicate WrittenAlone(s: State, t: State, pid: Pid, m: Mutation)
    requires s.versions != [] && m.content.Some?
  {
    && AtRest(t) && t.procs.Keys == s.procs.Keys + {pid} && t.torn == s.torn
    && Wrote(s, t, pid, m)
    && t.versions == s.versions + [Version(s.Last().revision + 1, s.Last().files[m.path := m.content.value])]
  }

  lemma WroteIs(s: State, t: State, pid: Pid, m: Mutation)
    requires Lineage(s.versions, s.commits) && Lineage(t.versions, t.commits) && s.versions <= t.versions
    requires Wrote(s, t, pid, m) && m.content.Some?
    ensures t.versions == s.versions + [Version(s.Last().revision + 1, s.Last().files[m.path := m.content.value])]
  {
    var n := |s.commits|;
    OnePublished(s.Last().files, m);
    assert t.versions[n] == s.Last();
    assert Follows(t.versions[n], t.commits[n].req, t.versions[n + 1]);
  }

  lemma {:induction false} KeysStay(s: State, actions: seq<Action>)
    requires LocksOk(s) && Legal(s, actions) && AdvancesOnly(actions)
    ensures After(s, actions).procs.Keys == s.procs.Keys
    decreases |actions|
  {
    if actions != [] {
      LocksKept(s, actions[0]);
      AdvanceStays(s, actions[0]);
      KeysStay(Do(s, actions[0]), actions[1..]);
    }
  }

  lemma OnePublished(files: Files, m: Mutation)
    requires m.content.Some?
    ensures Publish(files, [m]) == files[m.path := m.content.value]
  {
    var ts := TargetsOf([m]);
    assert ts == [Target(m.path, HashOf(m.content), m.who)];
    assert ts[..|ts| - 1] == [] && Overlay(files, []) == files;
  }

  // ---- one snapshot ----

  /** The call is on its way, or has been told what the disk holds; nothing else has changed. */
  ghost predicate Watching(s: State, t: State, pid: Pid) {
    && Alone(t, pid) && pid in t.procs && t.procs[pid].call == Snapshot
    && t.disk == s.disk && t.versions == s.versions && t.commits == s.commits && t.torn == s.torn
    && match t.procs[pid].pc
       case Booting | Looking => true
       case Releasing | Finished => t.procs[pid].outcome == Saw(Version(s.disk.revision, Visible(s.disk)))
       case _ => false
  }

  lemma WatchingStep(s: State, t: State, pid: Pid, tx: TxId, how: Manner)
    requires Watching(s, t, pid) && CanAdvance(t, pid)
    ensures Watching(s, Go(t, pid, tx, how), pid)
  {
  }

  lemma {:induction false} WatchingRuns(s: State, t: State, pid: Pid, actions: seq<Action>)
    requires Watching(s, t, pid) && Legal(t, actions) && AdvancesOnly(actions)
    ensures Watching(s, After(t, actions), pid)
    decreases |actions|
  {
    if actions != [] {
      OnlyItCan(t, pid, actions[0]);
      WatchingStep(s, t, pid, actions[0].tx, actions[0].how);
      WatchingRuns(s, Do(t, actions[0]), pid, actions[1..]);
    }
  }

  /** A snapshot can be taken, and shows the last version and every temporary left beside it. */
  lemma OneLook(s: State, pid: Pid) returns (actions: seq<Action>)
    requires Inv(s) && StrayInv(s) && AtRest(s) && pid !in s.procs && Enabled(s, Arrive(pid, Snapshot, []))
    ensures Legal(Do(s, Arrive(pid, Snapshot, [])), actions) && AdvancesOnly(actions)
    ensures LookedAlone(s, After(Do(s, Arrive(pid, Snapshot, [])), actions), pid)
  {
    var u := Do(s, Arrive(pid, Snapshot, []));
    Arrives(s, pid, Snapshot, []);
    ActionKeeps(s, Arrive(pid, Snapshot, []));
    ActionLeaves(s, Arrive(pid, Snapshot, []));
    actions := OneCall(u, pid);
    WatchingRuns(s, u, pid, actions);
    WatchedIs(s, After(u, actions), pid);
  }

  lemma WatchedIs(s: State, t: State, pid: Pid)
    requires Inv(s) && StrayInv(s) && AtRest(s) && Watching(s, t, pid) && t.procs[pid].pc.Finished?
    ensures AtRest(t)
    ensures t.procs[pid].outcome == Saw(Version(s.Last().revision, s.Last().files + LeftBy(s.torn)))
  {
    RestingDisk(s);
  }

  ghost predicate LookedAlone(s: State, t: State, pid: Pid)
    requires s.versions != []
  {
    && AtRest(t) && t.procs.Keys == s.procs.Keys + {pid}
    && t.disk == s.disk && t.versions == s.versions && t.commits == s.commits && t.torn == s.torn
    && t.procs[pid].outcome == Saw(Version(s.Last().revision, s.Last().files + LeftBy(s.torn)))
  }

  // ---- the moment to be killed at ----

  lemma EnterKeepsRevision(s: State, pid: Pid, how: Manner)
    requires CanAdvance(s, pid) && s.procs[pid].pc.Entering?
    ensures Enter(s, pid, how).disk.revision == s.disk.revision
  {
  }

  lemma OthersKeepRevision(s: State, pid: Pid, tx: TxId, how: Manner)
    requires CanAdvance(s, pid) && !s.procs[pid].pc.Entering? && !s.procs[pid].pc.Publishing?
    ensures Go(s, pid, tx, how).disk.revision == s.disk.revision
  {
  }

  /** A call that moves `.revision` does so by renaming a temporary. */
  lemma RevisionMoves(s: State, pid: Pid, tx: TxId, how: Manner)
    requires CanAdvance(s, pid) && s.boot.Up? && Go(s, pid, tx, how).disk.revision != s.disk.revision
    ensures Opened(s) != []
  {
    if s.procs[pid].pc.Entering? {
      EnterKeepsRevision(s, pid, how);
    } else if !s.procs[pid].pc.Publishing? {
      OthersKeepRevision(s, pid, tx, how);
    }
  }

  /** A run that moves `.revision` passes through a state in which a temporary awaits its renaming. */
  lemma {:induction false} RenamePoint(s: State, actions: seq<Action>) returns (k: nat)
    requires s.boot.Up? && Legal(s, actions) && AdvancesOnly(actions)
    requires After(s, actions).disk.revision != s.disk.revision
    ensures k < |actions| && Legal(s, actions[..k])
    ensures Opened(After(s, actions[..k])) != []
    decreases |actions|
  {
    var a, rest := actions[0], actions[1..];
    if Do(s, a).disk.revision != s.disk.revision {
      RevisionMoves(s, a.pid, a.tx, a.how);
      k := 0;
    } else {
      BootStays(s, a.pid, a.tx, a.how);
      var j := RenamePoint(Do(s, a), rest);
      k := j + 1;
      LegalFirst(s, a, rest[..j]);
      assert actions[..k] == [a] + rest[..j];
    }
  }

  /** Such a state lies on the way of any write. */
  lemma OneTornWrite(s: State, pid: Pid, m: Mutation) returns (actions: seq<Action>)
    requires Inv(s) && StrayInv(s) && AtRest(s) && pid !in s.procs && Writable(s.Last(), m)
    ensures Legal(s, actions) && Crash !in actions
    ensures Opened(After(s, actions)) != []
  {
    var arrive := Arrive(pid, WriteOf(m), [m.path]);
    var rest := WriteAlone(s, pid, m);
    RestingDisk(s);
    RestingDisk(After(Do(s, arrive), rest));
    var k := RenamePoint(Do(s, arrive), rest);
    LegalFirst(s, arrive, rest[..k]);
    actions := [arrive] + rest[..k];
  }

  // ---- one recovery ----

  lemma {:induction false} ListIds(ids: set<TxId>, how: Manner) returns (listing: seq<Entry>)
    ensures forall id :: id in ids ==> exists k :: 0 <= k < |listing| && listing[k].id == id
    ensures forall e :: e in listing ==> e.how == how
    decreases |ids|
  {
    if ids == {} {
      listing := [];
    } else {
      var id :| id in ids;
      var rest := ListIds(ids - {id}, how);
      listing := [Entry(id, how)] + rest;
      forall x | x in ids ensures exists k :: 0 <= k < |listing| && listing[k].id == x {
        if x == id {
          assert listing[0].id == x;
        } else {
          assert x in ids - {id};
          var k :| 0 <= k < |rest| && rest[k].id == x;
          assert listing[k + 1].id == x;
        }
      }
    }
  }

  lemma ListingExists(d: Disk) returns (listing: seq<Entry>)
    ensures Lists(listing, d) && FreshTemps(listing, d)
  {
    var how := FreshManner(d.strays);
    listing := ListIds(d.dirs.Keys, how);
  }

  function Recovers(n: nat): seq<Action> {
    seq(n, i => Recover)
  }

  lemma {:induction false} RecoversRun(s: State, script: seq<Step>)
    requires s.boot == Recovering(script)
    ensures Legal(s, Recovers(|script| + 1))
    ensures After(s, Recovers(|script| + 1)) == s.(boot := Up, disk := Run(s.disk, script))
    decreases |script|
  {
    var actions := Recovers(|script| + 1);
    assert actions[0] == Recover && actions[1..] == Recovers(|script|);
    if script != [] {
      RecoversRun(Do(s, Recover), script[1..]);
    }
  }

  /** After a kill one recovery can run to its end. */
  lemma OneRecovery(s: State) returns (actions: seq<Action>)
    requires DiskInv(s) && s.boot.Down?
    ensures Legal(s, actions) && Crash !in actions
    ensures Recovered(s, After(s, actions))
  {
    var listing := ListingExists(s.disk);
    var script := RecoverScript(s.disk, listing);
    var rest := Recovers(|script| + 1);
    RecoversRun(Do(s, Restart(listing)), script);
    LegalFirst(s, Restart(listing), rest);
    actions := [Restart(listing)] + rest;
    RecoveryEmpties(s, listing);
  }

  lemma RecoveryEmpties(s: State, listing: seq<Entry>)
    requires DiskInv(s) && Lists(listing, s.disk)
    ensures Run(s.disk, RecoverScript(s.disk, listing)).dirs == map[]
  {
    RecoverRuns(s.disk, listing, s.Last());
  }

  predicate Recovered(s: State, t: State) {
    t == s.(boot := Up, disk := t.disk) && t.disk.dirs == map[]
  }
}
