/** Every action of the engine keeps its invariant. */
module EngineSteps {
  import opened Wrappers
  import opened Documents
  import opened Storage
  import opened Recovery
  import opened Requests
  import opened LockTable
  import opened Engine
  import opened EngineLocks
  import opened EngineHistory

  /** Both halves of the invariant that speak of the disk. */
  ghost predicate Kept(t: State) {
    DiskInv(t) && Lineage(t.versions, t.commits) && ProcsInv(t)
  }

  lemma UpInBody(s: State, pid: Pid)
    requires Inv(s) && pid in s.procs && !s.procs[pid].pc.Booting? && !s.procs[pid].pc.Finished?
    ensures s.boot.Up?
  {
  }

  /** Steps that touch only the mover's variables and the locks. */
  lemma LocalKeeps(s: State, t: State, pid: Pid)
    requires Inv(s) && pid in s.procs && pid in t.procs && t.procs == s.procs[pid := t.procs[pid]]
    requires t.disk == s.disk && t.boot == s.boot && t.broken == s.broken
    requires t.versions == s.versions && t.commits == s.commits
    requires t.procs[pid].tx == s.procs[pid].tx
    requires s.boot.Up? || (s.boot.Wedged? && t.procs[pid].pc.Finished?)
    requires Committing(s.procs[pid]) ==> Quiet(s.disk)
    requires ProcInv(t, pid)
    ensures Kept(t)
  {
    QuietMove(s, t, pid);
    DiskMove(s, t, pid);
  }

  /** The moving call's own facts, before its step. */
  ghost predicate Here(s: State, pid: Pid) {
    CanAdvance(s, pid) && s.versions != [] && ProcInv(s, pid) && ProcOk(s.procs[pid])
  }

  lemma QueueMover(s: State, pid: Pid)
    requires Here(s, pid)
    ensures s.procs[pid].pc.Booting? ==> ProcInv(Start(s, pid), pid)
    ensures s.procs[pid].pc.Acquiring? ==> ProcInv(Acquire(s, pid), pid)
    ensures s.procs[pid].pc.Releasing? ==> ProcInv(Release(s, pid), pid)
    ensures s.procs[pid].pc.Checking? ==> ProcInv(Check(s, pid), pid)
  {
  }

  lemma StartKeeps(s: State, pid: Pid)
    requires Inv(s) && CanAdvance(s, pid) && s.procs[pid].pc.Booting?
    ensures Kept(Start(s, pid))
  {
    assert Here(s, pid);
    QueueMover(s, pid);
    LocalKeeps(s, Start(s, pid), pid);
  }

  lemma AcquireKeeps(s: State, pid: Pid)
    requires Inv(s) && CanAdvance(s, pid) && s.procs[pid].pc.Acquiring?
    ensures Kept(Acquire(s, pid))
  {
    assert Here(s, pid);
    QueueMover(s, pid);
    UpInBody(s, pid);
    LocalKeeps(s, Acquire(s, pid), pid);
  }

  lemma ReleaseKeeps(s: State, pid: Pid)
    requires Inv(s) && CanAdvance(s, pid) && s.procs[pid].pc.Releasing?
    ensures Kept(Release(s, pid))
  {
    assert Here(s, pid);
    QueueMover(s, pid);
    UpInBody(s, pid);
    LocalKeeps(s, Release(s, pid), pid);
  }

  lemma CheckKeeps(s: State, pid: Pid)
    requires Inv(s) && CanAdvance(s, pid) && s.procs[pid].pc.Checking?
    ensures Kept(Check(s, pid))
  {
    assert Here(s, pid);
    QueueMover(s, pid);
    UpInBody(s, pid);
    LocalKeeps(s, Check(s, pid), pid);
  }

  lemma ReadMover(s: State, pid: Pid)
    requires Here(s, pid) && s.procs[pid].pc.Reading?
    requires s.broken || s.disk.files == s.Last().files
    ensures ProcInv(Read(s, pid), pid)
  {
  }

  lemma ReadKeeps(s: State, pid: Pid)
    requires Inv(s) && CanAdvance(s, pid) && s.procs[pid].pc.Reading?
    ensures Kept(Read(s, pid))
  {
    assert Here(s, pid);
    UpInBody(s, pid);
    if !s.broken {
      LiveFilesAreLast(s, pid);
    }
    ReadMover(s, pid);
    LocalKeeps(s, Read(s, pid), pid);
  }

  lemma LookKeeps(s: State, pid: Pid)
    requires Inv(s) && CanAdvance(s, pid) && s.procs[pid].pc.Looking?
    ensures Kept(Look(s, pid))
  {
    assert ProcInv(s, pid) && ProcOk(s.procs[pid]);
    UpInBody(s, pid);
    if !s.broken {
      LiveFilesAreLast(s, pid);
      BesideSplits(s.disk.files, s.disk.strays);
      LastIsHonest(s.versions, s.commits, pid, s.procs[pid], Sight(s.procs[pid].call, s.disk));
    }
    LocalKeeps(s, Look(s, pid), pid);
  }

  lemma MismatchForbids(files: Files, p: Proc)
    requires p.call.WriteMany? && |p.current| == |p.Muts()| && Current(files, p.Muts(), p.current)
    ensures Permitted(files, p.call.req) <==> Expected(p.Muts(), p.current) && ChecksHold(files, p.call.req)
  {
    if !Expected(p.Muts(), p.current) {
      var i :| 0 <= i < |p.Muts()| && !ExpectationHolds(p.current[i], p.Muts()[i]);
      assert p.current[i] == EtagAt(files, p.Muts()[i].path);
    }
  }

  lemma RefuseKeeps(s: State, pid: Pid)
    requires Inv(s) && CanAdvance(s, pid) && s.procs[pid].pc.Refusing?
    ensures Kept(LeavePub(Settle(s, pid, if s.broken then Failed else Conflict(s.disk.revision))))
  {
    var p := s.procs[pid];
    assert ProcInv(s, pid) && ProcOk(p);
    UpInBody(s, pid);
    if !s.broken {
      LiveFilesAreLast(s, pid);
      MismatchForbids(s.Last().files, p);
      LastIsHonest(s.versions, s.commits, pid, p, Conflict(s.disk.revision));
    }
    LocalKeeps(s, LeavePub(Settle(s, pid, if s.broken then Failed else Conflict(s.disk.revision))), pid);
  }

  lemma CompareDisk(s: State, pid: Pid, tx: TxId)
    requires Here(s, pid) && s.procs[pid].pc.Comparing? && tx !in s.disk.dirs
    ensures Compare(s, pid, tx).disk != s.disk ==>
              SameBut(s.disk, Compare(s, pid, tx).disk, tx) && Compare(s, pid, tx).procs[pid].tx == Some(tx)
  {
  }

  /** Nothing staged yet. */
  lemma FirstStaged(d: Disk, p: Proc, tx: TxId)
    requires |p.current| == |p.Muts()|
    ensures StagedUpTo(d.(dirs := d.dirs[tx := TxDir(map[], None)]), p.(pc := Staging(0), tx := Some(tx)), 0)
  {
  }

  lemma CompareMover(s: State, pid: Pid, tx: TxId)
    requires Here(s, pid) && s.procs[pid].pc.Comparing? && tx !in s.disk.dirs
    ensures ProcInv(Compare(s, pid, tx), pid)
    ensures Compare(s, pid, tx).disk != s.disk ==>
              SameBut(s.disk, Compare(s, pid, tx).disk, tx) && Compare(s, pid, tx).procs[pid].tx == Some(tx)
  {
    var p := s.procs[pid];
    CompareDisk(s, pid, tx);
    if !Expected(p.Muts(), p.current) {
      assert ProcInv(JoinPub(Goto(s, pid, Refusing), pid), pid);
    } else if Changed(p.Muts(), p.current) == [] {
      assert ProcInv(JoinPub(Goto(s, pid, Entering), pid), pid);
    } else {
      FirstStaged(s.disk, p, tx);
      assert ProcInv(Compare(s, pid, tx), pid);
    }
  }

  lemma DirKeeps(s: State, t: State, pid: Pid, tx: TxId)
    requires Inv(s) && pid in s.procs && pid in t.procs && t.procs == s.procs[pid := t.procs[pid]]
    requires SameBut(s.disk, t.disk, tx) && t.versions == s.versions && t.commits == s.commits
    requires t.boot == s.boot && t.broken == s.broken && s.boot.Up? && !Committing(s.procs[pid])
    requires t.procs[pid].tx == Some(tx)
    requires forall x :: x in s.procs && x != pid ==> s.procs[x].tx != Some(tx)
    requires ProcInv(t, pid)
    ensures Kept(t)
  {
    SameMeaning(s.disk, t.disk, tx, s.Last());
    DirMove(s, t, pid, tx);
    DiskMove(s, t, pid);
  }

  lemma CompareStays(s: State, pid: Pid, tx: TxId)
    requires Here(s, pid) && s.procs[pid].pc.Comparing? && tx !in s.disk.dirs
    ensures
      var t := Compare(s, pid, tx);
      && pid in t.procs && t.procs == s.procs[pid := t.procs[pid]]
      && t.versions == s.versions && t.commits == s.commits && t.boot == s.boot && t.broken == s.broken
      && (t.disk == s.disk ==> t.procs[pid].tx == s.procs[pid].tx)
  {
    var p, t := s.procs[pid], Compare(s, pid, tx);
    if Expected(p.Muts(), p.current) && Changed(p.Muts(), p.current) != [] {
      assert tx in t.disk.dirs;
    }
  }

  lemma CompareKeeps(s: State, pid: Pid, tx: TxId)
    requires Inv(s) && CanAdvance(s, pid) && s.procs[pid].pc.Comparing? && Fresh(s, tx)
    ensures Kept(Compare(s, pid, tx))
  {
    var t := Compare(s, pid, tx);
    assert Here(s, pid);
    UpInBody(s, pid);
    CompareMover(s, pid, tx);
    CompareStays(s, pid, tx);
    if t.disk == s.disk {
      LocalKeeps(s, t, pid);
    } else {
      DirKeeps(s, t, pid, tx);
    }
  }

  lemma StagedNext(d: Disk, p: Proc, j: nat)
    requires |p.current| == |p.Muts()| && StagedUpTo(d, p, j) && j < |Changed(p.Muts(), p.current)|
    ensures
      var change := Changed(p.Muts(), p.current)[j];
      var dir := d.dirs[p.tx.value];
      if change.content == None then StagedUpTo(d, p, j + 1)
      else
        var e := d.(dirs := d.dirs[p.tx.value := dir.(stages := dir.stages[j := change.content.value])]);
        StagedUpTo(e, p, j + 1) && SameBut(d, e, p.tx.value)
  {
  }

  lemma StageMover(s: State, pid: Pid, j: nat)
    requires Here(s, pid) && s.procs[pid].pc == Staging(j)
    ensures ProcInv(Stage(s, pid, j), pid)
    ensures s.procs[pid].tx.Some? && SameBut(s.disk, Stage(s, pid, j).disk, s.procs[pid].tx.value)
    ensures Stage(s, pid, j).procs[pid].tx == s.procs[pid].tx
  {
    var p := s.procs[pid];
    if j < |Changed(p.Muts(), p.current)| {
      StagedNext(s.disk, p, j);
    }
  }

  lemma StageStays(s: State, pid: Pid, j: nat)
    requires Here(s, pid) && s.procs[pid].pc == Staging(j)
    ensures
      var t := Stage(s, pid, j);
      && pid in t.procs && t.procs == s.procs[pid := t.procs[pid]]
      && t.versions == s.versions && t.commits == s.commits && t.boot == s.boot && t.broken == s.broken
  {
  }

  lemma StageKeeps(s: State, pid: Pid, j: nat)
    requires Inv(s) && CanAdvance(s, pid) && s.procs[pid].pc == Staging(j)
    ensures Kept(Stage(s, pid, j))
  {
    assert Here(s, pid);
    UpInBody(s, pid);
    StageMover(s, pid, j);
    StageStays(s, pid, j);
    DirKeeps(s, Stage(s, pid, j), pid, s.procs[pid].tx.value);
  }

  // ---- entering the publication lock ----

  lemma {:induction false} ApplyIsOwn(d: Disk, id: TxId, ts: seq<Target>, i: nat)
    ensures OwnSteps(ApplyScript(d, id, ts, i), Some(id))
    decreases |ts| - i
  {
    if i < |ts| {
      var one := ApplyOne(d.files, id, i, ts[i]);
      ApplyIsOwn(Run(d, one), id, ts, i + 1);
    }
  }

  lemma {:induction false} EmitIsOwn(events: seq<Event>, tx: Option<TxId>)
    ensures OwnSteps(EmitScript(events), tx)
  {
    if events != [] {
      EmitIsOwn(events[1..], tx);
    }
  }

  lemma {:induction false} SweepIsOwn(id: TxId, order: seq<Item>)
    ensures OwnSteps(SweepScript(id, order), Some(id))
  {
    if order != [] {
      SweepIsOwn(id, order[1..]);
    }
  }

  lemma FinishIsOwn(d: Disk, id: TxId, it: Intent, how: Manner)
    ensures OwnSteps(FinishScript(d, id, it, how), Some(id))
  {
    ApplyIsOwn(d, id, it.targets, 0);
    EmitIsOwn(Events(id, it, 0), Some(id));
    SweepIsOwn(id, how.order);
  }

  lemma StagedIsAvailable(d: Disk, p: Proc)
    requires |p.current| == |p.Muts()| && StagedUpTo(d, p, |Changed(p.Muts(), p.current)|)
    ensures
      var ts := TargetsOf(Changed(p.Muts(), p.current));
      forall i :: 0 <= i < |ts| ==> Available(d.files, d.dirs[p.tx.value], i, ts[i])
  {
  }

  /** Which way `Enter` goes. */
  predicate Publishes(s: State, pid: Pid)
    requires pid in s.procs && s.procs[pid].call.WriteMany?
  {
    && !s.broken && ChecksHold(s.disk.files, s.procs[pid].call.req) && s.procs[pid].tx.Some?
    && s.disk.revision + 1 <= MAX_SAFE_INTEGER
  }

  lemma ConflictHonest(s: State, pid: Pid)
    requires Here(s, pid) && s.procs[pid].pc.Entering? && Version(s.disk.revision, s.disk.files) == s.Last()
    requires !ChecksHold(s.disk.files, s.procs[pid].call.req)
    ensures Honest(s.versions, s.commits, pid, s.procs[pid], Conflict(s.disk.revision))
  {
    MismatchForbids(s.Last().files, s.procs[pid]);
    LastIsHonest(s.versions, s.commits, pid, s.procs[pid], Conflict(s.disk.revision));
  }

  lemma NothingToDo(files: Files, p: Proc)
    requires p.call.WriteMany? && |p.current| == |p.Muts()| && Current(files, p.Muts(), p.current)
    requires Expected(p.Muts(), p.current) && ChecksHold(files, p.call.req) && DistinctPaths(p.Muts())
    requires Changed(p.Muts(), p.current) == []
    ensures Permitted(files, p.call.req) && Publish(files, p.call.req.muts) == files
  {
    MismatchForbids(files, p);
    UnchangedIsIdentity(files, p.Muts(), p.current);
  }

  lemma UnchangedHonest(s: State, pid: Pid)
    requires pid in s.procs && s.procs[pid].pc.Entering? && s.versions != [] && ProcOk(s.procs[pid])
    requires EtagInv(s.Last().files, s.procs[pid]) && s.procs[pid].since < |s.versions|
    requires Version(s.disk.revision, s.disk.files) == s.Last() && DistinctPaths(s.procs[pid].Muts())
    requires ChecksHold(s.disk.files, s.procs[pid].call.req) && s.procs[pid].tx == None
    ensures Honest(s.versions, s.commits, pid, s.procs[pid], Unchanged(s.disk.revision))
  {
    NothingToDo(s.Last().files, s.procs[pid]);
    LastIsHonest(s.versions, s.commits, pid, s.procs[pid], Unchanged(s.disk.revision));
  }

  /** A call that found its preconditions false, or nothing to change, or no revision left. */
  lemma TurnedAwayMover(s: State, pid: Pid, how: Manner)
    requires Here(s, pid) && s.procs[pid].pc.Entering? && !Publishes(s, pid)
    requires s.broken || (Quiet(s.disk) && Version(s.disk.revision, s.disk.files) == s.Last())
    requires DistinctPaths(s.procs[pid].Muts())
    ensures ProcInv(Enter(s, pid, how), pid) && !Committing(Enter(s, pid, how).procs[pid])
    ensures Enter(s, pid, how).disk == s.disk && Enter(s, pid, how).versions == s.versions
    ensures Enter(s, pid, how).commits == s.commits
  {
    var p := s.procs[pid];
    if !s.broken {
      if !ChecksHold(s.disk.files, p.call.req) {
        ConflictHonest(s, pid);
      } else if p.tx == None {
        UnchangedHonest(s, pid);
      }
      if p.tx.Some? {
        SweepRuns(s.disk, p.tx.value, how.order);
        SweepIsOwn(p.tx.value, how.order);
      }
    }
  }

  lemma TurnedAwayKeeps(s: State, pid: Pid, how: Manner)
    requires Inv(s) && CanAdvance(s, pid) && s.procs[pid].pc.Entering? && !Publishes(s, pid)
    ensures Kept(Enter(s, pid, how))
  {
    assert Here(s, pid);
    UpInBody(s, pid);
    if !s.broken {
      LiveFilesAreLast(s, pid);
    }
    TurnedAwayMover(s, pid, how);
    LocalKeeps(s, Enter(s, pid, how), pid);
  }

  /** What recording the intent does to the disk. */
  lemma IntentRecorded(d0: Disk, p: Proc, tx: TxId, how: Manner)
    requires Quiet(d0) && |p.current| == |p.Muts()| && p.tx == Some(tx)
    requires StagedUpTo(d0, p, |Changed(p.Muts(), p.current)|)
    requires Current(d0.files, p.Muts(), p.current) && DistinctPaths(p.Muts())
    ensures
      var it := Intent(d0.revision + 1, TargetsOf(Changed(p.Muts(), p.current)));
      var d := Exec(d0, PutIntent(tx, it));
      var script := FinishScript(d, tx, it, how);
      && Recoverable(d) && Denotes(d, Version(d0.revision + 1, Publish(d0.files, p.Muts())))
      && Safe(d, script) && OwnSteps(script, Some(tx)) && Quiet(Run(d, script))
  {
    var ts := TargetsOf(Changed(p.Muts(), p.current));
    var it := Intent(d0.revision + 1, ts);
    var d := Exec(d0, PutIntent(tx, it));
    PublishChanged(d0.files, p.Muts(), p.current);
    StagedIsAvailable(d0, p);
    PutIntentCommits(d0, tx, it);
    FinishRuns(d, tx, how);
    FinishIsOwn(d, tx, it, how);
    var e := Run(d, FinishScript(d, tx, it, how));
    forall x ensures !Pending(e, x) {
      assert Pending(d, x) ==> x == tx;
    }
  }

  lemma PublishFollows(v: Version, p: Proc)
    requires p.call.WriteMany? && |p.current| == |p.Muts()| && DistinctPaths(p.Muts()) && LegalPaths(p.Muts())
    requires Current(v.files, p.Muts(), p.current) && Expected(p.Muts(), p.current)
    requires Valid(p.call.req) && ChecksHold(v.files, p.call.req) && Changed(p.Muts(), p.current) != []
    ensures Follows(v, p.call.req, Version(v.revision + 1, Publish(v.files, p.Muts())))
  {
    MismatchForbids(v.files, p);
    UnchangedIsIdentity(v.files, p.Muts(), p.current);
  }

  /** `Enter`, when it commits, spelled out. */
  lemma EnterCommits(s: State, pid: Pid, how: Manner)
    requires CanAdvance(s, pid) && s.procs[pid].pc.Entering? && Publishes(s, pid)
    ensures
      var p, t := s.procs[pid], Enter(s, pid, how);
      var it := Intent(s.disk.revision + 1, TargetsOf(Changed(p.Muts(), p.current)));
      var d := Exec(s.disk, PutIntent(p.tx.value, it));
      && t.disk == d && t.boot == s.boot && t.broken == s.broken
      && t.versions == s.versions + [Version(s.disk.revision + 1, Publish(s.disk.files, p.Muts()))]
      && t.commits == s.commits + [Commit(pid, p.call.req)]
      && pid in t.procs && t.procs == s.procs[pid := t.procs[pid]]
      && t.procs[pid] == p.(pc := Publishing(FinishScript(d, p.tx.value, it, how), Written(s.disk.revision + 1)))
  {
  }

  /** The commit, as the whole state sees it. */
  lemma PublishedDisk(s: State, pid: Pid, how: Manner)
    requires Here(s, pid) && s.procs[pid].pc.Entering? && Publishes(s, pid)
    requires Quiet(s.disk) && Version(s.disk.revision, s.disk.files) == s.Last()
    requires DistinctPaths(s.procs[pid].Muts()) && LegalPaths(s.procs[pid].Muts())
    ensures
      var t := Enter(s, pid, how);
      && t.versions == s.versions + [t.Last()] && t.commits == s.commits + [Commit(pid, s.procs[pid].call.req)]
      && Recoverable(t.disk) && Denotes(t.disk, t.Last()) && Follows(s.Last(), s.procs[pid].call.req, t.Last())
      && t.procs[pid].pc.Publishing? && ScriptInv(t, t.procs[pid])
      && t.procs[pid].pc.result == Written(t.Last().revision)
      && t.disk.dirs - {s.procs[pid].tx.value} == s.disk.dirs - {s.procs[pid].tx.value}
  {
    var p := s.procs[pid];
    EnterCommits(s, pid, how);
    IntentRecorded(s.disk, p, p.tx.value, how);
    PublishFollows(s.Last(), p);
    IntentIsLocal(s.disk, p.tx.value, Intent(s.disk.revision + 1, TargetsOf(Changed(p.Muts(), p.current))));
  }

  lemma IntentIsLocal(d: Disk, tx: TxId, it: Intent)
    ensures Exec(d, PutIntent(tx, it)).dirs - {tx} == d.dirs - {tx}
  {
  }

  /** Publishing one call's files leaves the ETags another call read true. */
  lemma PublishSpares(files: Files, muts: seq<Mutation>, other: Proc)
    requires DistinctPaths(muts) && EtagInv(files, other)
    requires forall i, j :: 0 <= i < |muts| && 0 <= j < |other.Muts()| ==> muts[i].path != other.Muts()[j].path
    ensures EtagInv(Publish(files, muts), other)
  {
    DistinctTargets(muts);
    if ComparesEtags(other.pc) {
      forall j | 0 <= j < |other.current|
        ensures other.current[j] == EtagAt(Publish(files, muts), other.Muts()[j].path)
      {
        OverlayAt(files, TargetsOf(muts), other.Muts()[j].path);
      }
    }
  }

  lemma LineageGrows(versions: seq<Version>, commits: seq<Commit>, w: Version, c: Commit)
    requires Lineage(versions, commits) && versions != [] && Follows(versions[|versions| - 1], c.req, w)
    ensures Lineage(versions + [w], commits + [c])
  {
  }

  /** A commit leaves the other calls' facts as they were. */
  lemma PublishedOthers(s: State, t: State, pid: Pid)
    requires Inv(s) && pid in s.procs && s.procs[pid].pc.Entering? && s.procs[pid].tx.Some?
    requires t.versions != [] && t.Last().files == Publish(s.Last().files, s.procs[pid].Muts())
    requires DistinctPaths(s.procs[pid].Muts())
    requires t.disk.dirs - {s.procs[pid].tx.value} == s.disk.dirs - {s.procs[pid].tx.value}
    ensures forall x :: x in s.procs && x != pid ==> EtagInv(t.Last().files, s.procs[x])
    ensures forall x :: x in s.procs && x != pid && s.procs[x].tx.Some? ==>
              DirSame(s.disk, t.disk, s.procs[x].tx.value)
  {
    var p := s.procs[pid];
    forall x | x in s.procs && x != pid
      ensures EtagInv(t.Last().files, s.procs[x])
    {
      assert ProcInv(s, x);
      if ComparesEtags(s.procs[x].pc) {
        BodiesAreDisjoint(s, pid, x);
        PublishSpares(s.Last().files, p.Muts(), s.procs[x]);
      }
    }
    forall x | x in s.procs && x != pid && s.procs[x].tx.Some?
      ensures DirSame(s.disk, t.disk, s.procs[x].tx.value)
    {
      SameOutside(s.disk.dirs, t.disk.dirs, p.tx.value, s.procs[x].tx.value);
    }
  }

  /** The committer's own facts, once its intent is on disk. */
  lemma CommitterOk(s: State, pid: Pid, how: Manner)
    requires Here(s, pid) && s.procs[pid].pc.Entering? && Publishes(s, pid)
    requires Quiet(s.disk) && Version(s.disk.revision, s.disk.files) == s.Last()
    requires DistinctPaths(s.procs[pid].Muts()) && LegalPaths(s.procs[pid].Muts()) && |s.versions| == |s.commits| + 1
    ensures
      var t := Enter(s, pid, how);
      && ProcInv(t, pid) && Committing(t.procs[pid]) && t.procs[pid].tx == s.procs[pid].tx
  {
    var p, t := s.procs[pid], Enter(s, pid, how);
    EnterCommits(s, pid, how);
    PublishedDisk(s, pid, how);
    var o := Written(t.Last().revision);
    assert AnswersAt(t.versions, t.commits, pid, p.call, o, |s.commits| + 1) && InTime(p, o, |s.commits| + 1);
    HonestGrows(s.versions, s.commits, t.versions, t.commits, pid, p, p.outcome);
  }

  lemma PublishedNoDots(files: Files, muts: seq<Mutation>)
    requires NoDots(files) && LegalPaths(muts)
    ensures NoDots(Publish(files, muts))
  {
    forall t | t in TargetsOf(muts) ensures !DotFile(t.path) {
      var i :| 0 <= i < |muts| && TargetsOf(muts)[i] == t;
      assert t.path == muts[i].path;
    }
    OverlayNoDots(files, TargetsOf(muts));
  }

  lemma PublishedKeeps(s: State, pid: Pid, how: Manner)
    requires Inv(s) && CanAdvance(s, pid) && s.procs[pid].pc.Entering? && Publishes(s, pid)
    ensures Kept(Enter(s, pid, how))
  {
    var t := Enter(s, pid, how);
    assert Here(s, pid);
    UpInBody(s, pid);
    LiveFilesAreLast(s, pid);
    EnterCommits(s, pid, how);
    PublishedDisk(s, pid, how);
    LineageGrows(s.versions, s.commits, t.Last(), Commit(pid, s.procs[pid].call.req));
    OnePublisher(s, pid);
    CommitterOk(s, pid, how);
    PublishedOthers(s, t, pid);
    PublishedNoDots(s.Last().files, s.procs[pid].Muts());
    ProcsKeep(s, t, pid);
  }

  lemma SameOutside(a: map<TxId, TxDir>, b: map<TxId, TxDir>, tx: TxId, id: TxId)
    requires a - {tx} == b - {tx} && id != tx
    ensures (id in a <==> id in b) && (id in a ==> a[id] == b[id])
  {
    assert id in a <==> id in a - {tx};
    assert id in b <==> id in b - {tx};
    assert id in a ==> (a - {tx})[id] == a[id];
    assert id in b ==> (b - {tx})[id] == b[id];
  }

  // ---- publishing ----

  /** The publisher's own facts, one step on. */
  lemma ProceedMover(s: State, pid: Pid)
    requires Here(s, pid) && s.procs[pid].pc.Publishing?
    ensures
      var t := Proceed(s, pid, s.procs[pid].pc.script, s.procs[pid].pc.result);
      && ProcInv(t, pid) && t.procs[pid].tx == s.procs[pid].tx && t.versions == s.versions && t.commits == s.commits
      && pid in t.procs && t.procs == s.procs[pid := t.procs[pid]] && t.boot == s.boot && t.broken == s.broken
  {
    var script := s.procs[pid].pc.script;
    if script != [] {
      StepIsLocal(s.disk, script[0], s.procs[pid].tx);
    }
  }

  lemma ProceedOthers(s: State, t: State, pid: Pid, step: Step)
    requires ProcsInv(s) && pid in s.procs && s.procs[pid].pc.Publishing? && t.disk == Exec(s.disk, step)
    requires t.versions == s.versions && !step.PutIntent? && (step.Emit? || Some(step.id) == s.procs[pid].tx)
    ensures forall x :: x in s.procs && x != pid ==> EtagInv(t.Last().files, s.procs[x])
    ensures forall x :: x in s.procs && x != pid && s.procs[x].tx.Some? ==>
              DirSame(s.disk, t.disk, s.procs[x].tx.value)
    ensures forall id :: Pending(t.disk, id) ==> Pending(s.disk, id)
  {
    StepIsLocal(s.disk, step, s.procs[pid].tx);
    forall x | x in s.procs && x != pid
      ensures EtagInv(t.Last().files, s.procs[x])
      ensures s.procs[x].tx.Some? ==> DirSame(s.disk, t.disk, s.procs[x].tx.value)
    {
      assert ProcInv(s, x);
    }
  }

  lemma ProceedKeeps(s: State, pid: Pid)
    requires Inv(s) && CanAdvance(s, pid) && s.procs[pid].pc.Publishing?
    ensures Kept(Proceed(s, pid, s.procs[pid].pc.script, s.procs[pid].pc.result))
  {
    var p := s.procs[pid];
    var script := p.pc.script;
    var t := Proceed(s, pid, script, p.pc.result);
    assert Here(s, pid);
    UpInBody(s, pid);
    ProceedMover(s, pid);
    if script == [] {
      LocalKeeps(s, t, pid);
    } else {
      OnePublisher(s, pid);
      StepKeeps(s.disk, script[0], s.Last());
      StepKeepsDots(s.disk, script[0]);
      ProceedOthers(s, t, pid, script[0]);
      ProcsKeep(s, t, pid);
      DiskMove(s, t, pid);
    }
  }

  lemma StepIsLocal(d: Disk, step: Step, tx: Option<TxId>)
    requires !step.PutIntent? && (step.Emit? || Some(step.id) == tx)
    ensures forall id: TxId :: tx != Some(id) ==> DirSame(d, Exec(d, step), id)
    ensures forall id :: Pending(Exec(d, step), id) ==> Pending(d, id)
  {
  }

  // ---- failures, crashes and recovery ----

  lemma ThrowMover(s: State, pid: Pid, harm: bool)
    requires CanFail(s, pid) && s.versions != [] && ProcInv(s, pid) && ProcOk(s.procs[pid])
    ensures ProcInv(Thrown(s, pid, harm), pid)
  {
  }

  /** A throw while staging, with its clean-up done. */
  lemma StagingThrowKeeps(s: State, pid: Pid)
    requires Inv(s) && CanFail(s, pid) && s.procs[pid].pc.Staging?
    ensures Kept(Throw(s, pid, false))
  {
    var t := Throw(s, pid, false);
    assert ProcInv(s, pid) && ProcOk(s.procs[pid]);
    UpInBody(s, pid);
    ThrowMover(s, pid, false);
    DirKeeps(s, t, pid, s.procs[pid].tx.value);
  }

  /** Nothing that is not publishing depends on the temporaries. */
  lemma CleanUpKeeps(s: State, script: seq<Step>, harm: bool)
    requires Kept(s) && !s.boot.Recovering? && forall x :: x in s.procs ==> !s.procs[x].pc.Publishing?
    ensures Kept(CleanUp(s, script, harm))
  {
    var t := CleanUp(s, script, harm);
    assert t.disk == s.disk.(strays := t.disk.strays);
    assert forall id :: Pending(t.disk, id) <==> Pending(s.disk, id);
    CleanUpSpares(s, t);
    CleanUpDisk(s, t);
  }

  lemma CleanUpSpares(s: State, t: State)
    requires ProcsInv(s) && t == s.(disk := s.disk.(strays := t.disk.strays), torn := t.torn)
    requires forall x :: x in s.procs ==> !s.procs[x].pc.Publishing?
    ensures ProcsInv(t)
  {
    forall x | x in t.procs ensures ProcInv(t, x) {
      assert ProcInv(s, x);
    }
  }

  lemma CleanUpDisk(s: State, t: State)
    requires DiskInv(s) && t == s.(disk := s.disk.(strays := t.disk.strays), torn := t.torn)
    requires OnlyDots(t.disk.strays) && !s.boot.Recovering?
    ensures DiskInv(t)
  {
    assert forall id :: Pending(t.disk, id) <==> Pending(s.disk, id);
    forall id | Pending(t.disk, id) ensures IntentOk(t.disk, id) {
      assert IntentOk(s.disk, id);
    }
    if s.boot.Up? && !s.broken && !Quiet(t.disk) {
      var c :| c in s.procs && Committing(s.procs[c]);
      assert Committing(t.procs[c]);
    }
  }

  /** A call that throws, before the temporary it may have open is cleaned up. */
  function Thrown(s: State, pid: Pid, harm: bool): State
    requires CanFail(s, pid)
  {
    if s.procs[pid].pc.Publishing? then
      LeavePub(Settle(s, pid, Failed).(broken := s.broken || s.procs[pid].pc.result.Written?))
    else Throw(s, pid, harm)
  }

  lemma ThrowKeeps(s: State, pid: Pid, harm: bool)
    requires Inv(s) && CanFail(s, pid)
    ensures Kept(Throw(s, pid, harm))
  {
    ThrownKeeps(s, pid, harm);
    if s.procs[pid].pc.Publishing? {
      OnePublisher(s, pid);
      UpInBody(s, pid);
      CleanUpKeeps(Thrown(s, pid, harm), s.procs[pid].pc.script, harm);
    }
  }

  lemma ThrownKeeps(s: State, pid: Pid, harm: bool)
    requires Inv(s) && CanFail(s, pid)
    ensures Kept(Thrown(s, pid, harm))
  {
    var t := Thrown(s, pid, harm);
    UpInBody(s, pid);
    ThrowMover(s, pid, harm);
    if s.procs[pid].pc.Staging? && !harm {
      StagingThrowKeeps(s, pid);
    } else {
      if InPub(s.procs[pid].pc) {
        OnePublisher(s, pid);
      }
      QuietMove(s, t, pid);
      DiskMove(s, t, pid);
    }
  }

  lemma ArriveProcs(s: State, pid: Pid, call: Call, order: seq<Path>)
    requires ProcsInv(s) && Enabled(s, Arrive(pid, call, order)) && |s.commits| < |s.versions|
    ensures ProcsInv(Do(s, Arrive(pid, call, order)))
  {
    var t := Do(s, Arrive(pid, call, order));
    forall x | x in t.procs ensures ProcInv(t, x) {
      if x != pid {
        assert ProcInv(s, x);
        BystanderKeeps(s, t, x);
      }
    }
  }

  lemma ArriveDisk(s: State, pid: Pid, call: Call, order: seq<Path>)
    requires DiskInv(s) && Enabled(s, Arrive(pid, call, order))
    ensures DiskInv(Do(s, Arrive(pid, call, order)))
  {
    var t := Do(s, Arrive(pid, call, order));
    if s.boot.Up? && !s.broken && !Quiet(s.disk) {
      var c :| c in s.procs && Committing(s.procs[c]);
      assert Committing(t.procs[c]);
    }
  }

  lemma ArriveKeeps(s: State, pid: Pid, call: Call, order: seq<Path>)
    requires Inv(s) && Enabled(s, Arrive(pid, call, order))
    ensures Kept(Do(s, Arrive(pid, call, order)))
  {
    ArriveProcs(s, pid, call, order);
    ArriveDisk(s, pid, call, order);
  }

  /** Calls that wait for the boot, or were refused by it, do not see the disk. */
  lemma BootSpares(s: State, t: State)
    requires ProcsInv(s) && t.procs == s.procs && t.versions == s.versions && t.commits == s.commits
    requires forall x :: x in s.procs ==> s.procs[x].pc.Booting? || s.procs[x].pc.Finished?
    ensures ProcsInv(t)
  {
    forall x | x in t.procs ensures ProcInv(t, x) {
      assert ProcInv(s, x);
    }
  }

  lemma RestartKeeps(s: State, listing: seq<Entry>)
    requires Inv(s) && Enabled(s, Restart(listing))
    ensures Kept(Do(s, Restart(listing)))
  {
    var t := Do(s, Restart(listing));
    RecoverRuns(s.disk, listing, s.Last());
    BootSpares(s, t);
  }

  lemma RecoverKeeps(s: State)
    requires Inv(s) && s.boot.Recovering?
    ensures Kept(Do(s, Recover))
  {
    if s.boot.script != [] {
      StepKeeps(s.disk, s.boot.script[0], s.Last());
      StepKeepsDots(s.disk, s.boot.script[0]);
    }
    BootSpares(s, Do(s, Recover));
  }

  lemma GaveUpKeeps(s: State, harm: bool)
    requires Inv(s) && s.boot.Recovering?
    ensures Kept(Do(s, RecoverFails(harm)))
  {
    var u := s.(boot := Wedged);
    BootSpares(s, u);
    CleanUpKeeps(u, s.boot.script, harm);
  }

  lemma AdvanceKeeps(s: State, pid: Pid, tx: TxId, how: Manner)
    requires Inv(s) && Enabled(s, Advance(pid, tx, how))
    ensures Kept(Go(s, pid, tx, how))
  {
    match s.procs[pid].pc
    case Booting => StartKeeps(s, pid);
    case Acquiring => AcquireKeeps(s, pid);
    case Checking => CheckKeeps(s, pid);
    case Reading => ReadKeeps(s, pid);
    case Comparing => CompareKeeps(s, pid, tx);
    case Refusing => RefuseKeeps(s, pid);
    case Staging(j) => StageKeeps(s, pid, j);
    case Entering =>
      if Publishes(s, pid) {
        PublishedKeeps(s, pid, how);
      } else {
        TurnedAwayKeeps(s, pid, how);
      }
    case Publishing(_, _) => ProceedKeeps(s, pid);
    case Looking => LookKeeps(s, pid);
    case Releasing => ReleaseKeeps(s, pid);
  }

  /** Every action, whoever takes it, keeps the invariant. */
  lemma ActionKeeps(s: State, a: Action)
    requires Inv(s) && Enabled(s, a)
    ensures Inv(Do(s, a))
  {
    LocksKept(s, a);
    match a
    case Arrive(pid, call, order) => ArriveKeeps(s, pid, call, order);
    case Advance(pid, tx, how) => AdvanceKeeps(s, pid, tx, how);
    case Fail(pid, harm) => ThrowKeeps(s, pid, harm);
    case Crash =>
    case Restart(listing) => RestartKeeps(s, listing);
    case Recover => RecoverKeeps(s);
    case RecoverFails(harm) => GaveUpKeeps(s, harm);
  }
}
