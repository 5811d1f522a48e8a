/** The engine's guarantees, over every run: any calls, any interleaving, any failures and crashes. */
module EngineTheorems {
  import opened Wrappers
  import opened Documents
  import opened Storage
  import opened Recovery
  import opened Requests
  import opened LockTable
  import opened Engine
  import opened EngineLocks
  import opened EngineHistory
  import opened EngineSteps
  import opened EngineStrays

  /** A process that has just started on a disk any earlier run may have left. */
  ghost predicate Init(s: State) {
    && s.versions != [] && s.commits == [] && |s.versions| == 1
    && Recoverable(s.disk) && Denotes(s.disk, s.versions[0])
    && NoDots(s.versions[0].files) && s.disk.strays == LeftBy(s.torn) && DistinctTemps(s.torn)
    && s.boot == Down && !s.broken && s.procs == map[] && s.table == Table(map[], map[]) && s.pub == []
  }

  /** The actions can be taken one after another from `s`. */
  ghost predicate Legal(s: State, actions: seq<Action>)
    decreases |actions|
  {
    actions == [] || (Enabled(s, actions[0]) && Legal(Do(s, actions[0]), actions[1..]))
  }

  ghost function After(s: State, actions: seq<Action>): State
    requires Legal(s, actions)
    decreases |actions|
  {
    if actions == [] then s else After(Do(s, actions[0]), actions[1..])
  }

  lemma InitHolds(s: State)
    requires Init(s)
    ensures Inv(s) && StrayInv(s)
  {
    assert forall p, pid :: pid in s.table.Queue(p) <==> Awaits(s.table, pid, p);
    LeftByAre(s.torn);
    assert s.torn + [] == s.torn;
  }

  lemma {:induction false} RunKeepsInv(s: State, actions: seq<Action>)
    requires Inv(s) && Legal(s, actions)
    ensures Inv(After(s, actions))
    decreases |actions|
  {
    if actions != [] {
      ActionKeeps(s, actions[0]);
      RunKeepsInv(Do(s, actions[0]), actions[1..]);
    }
  }

  lemma {:induction false} RunKeepsStrays(s: State, actions: seq<Action>)
    requires Inv(s) && StrayInv(s) && Legal(s, actions)
    ensures StrayInv(After(s, actions))
    decreases |actions|
  {
    if actions != [] {
      ActionKeeps(s, actions[0]);
      ActionLeaves(s, actions[0]);
      RunKeepsStrays(Do(s, actions[0]), actions[1..]);
    }
  }

  lemma HistoryStep(s: State, a: Action)
    requires Enabled(s, a)
    ensures s.versions <= Do(s, a).versions && s.commits <= Do(s, a).commits
  {
    if a.Advance? {
      if s.procs[a.pid].pc.Entering? {
        EnterGrows(s, a.pid, a.how);
      } else {
        OthersKeepHistory(s, a.pid, a.tx, a.how);
      }
    }
  }

  lemma EnterGrows(s: State, pid: Pid, how: Manner)
    requires CanAdvance(s, pid) && s.procs[pid].pc.Entering?
    ensures s.versions <= Enter(s, pid, how).versions && s.commits <= Enter(s, pid, how).commits
  {
  }

  lemma OthersKeepHistory(s: State, pid: Pid, tx: TxId, how: Manner)
    requires CanAdvance(s, pid) && !s.procs[pid].pc.Entering?
    ensures Go(s, pid, tx, how).versions == s.versions && Go(s, pid, tx, how).commits == s.commits
  {
  }

  /** Nothing committed is ever lost or rewritten, crashes included. */
  lemma {:induction false} HistoryOnlyGrows(s: State, actions: seq<Action>)
    requires Legal(s, actions)
    ensures s.versions <= After(s, actions).versions && s.commits <= After(s, actions).commits
    decreases |actions|
  {
    if actions != [] {
      HistoryStep(s, actions[0]);
      HistoryOnlyGrows(Do(s, actions[0]), actions[1..]);
    }
  }

  /**
   * The snapshot is a committed version, no older than the call, and beside it the first `k` of the
   * temporaries ever left: it is that version alone if and only if there were none.
   */
  ghost predicate ShowsVersion(s: State, p: Proc)
    requires p.outcome.Saw?
  {
    var v := p.outcome.version;
    exists n: nat, k: nat ::
      && p.since <= n < |s.versions| && p.tears <= k <= |s.torn|
      && v == Version(s.versions[n].revision, s.versions[n].files + LeftBy(s.torn[..k]))
      && (v == s.versions[n] <==> k == 0)
  }

  /** A tree is its files and its temporaries. */
  lemma TreeJoins(files: Files)
    ensures files == Bare(files) + TempsIn(files)
    ensures files == Bare(files) <==> TempsIn(files) == map[]
  {
    if TempsIn(files) == map[] {
      forall p | p in files ensures p in Bare(files) {
        assert p !in TempsIn(files);
      }
    } else {
      var p :| p in TempsIn(files);
      assert p in files && p !in Bare(files);
    }
  }

  lemma SnapshotShows(s: State, pid: Pid)
    requires Inv(s) && StrayInv(s) && pid in s.procs && s.procs[pid].outcome.Saw?
    ensures ShowsVersion(s, s.procs[pid])
  {
    var p := s.procs[pid];
    var n := PointOf(s, pid);
    assert SightOk(s.torn, p);
    var k :| p.tears <= k <= |s.torn| && TempsIn(p.outcome.version.files) == LeftBy(s.torn[..k]);
    TreeJoins(p.outcome.version.files);
    SomeLeft(s.torn[..k]);
  }

  /**
   * Linearisability. The committed versions are a sequential history: each is its predecessor after
   * one call, all of whose ETag, read and directory preconditions held there. Every answer given is
   * the one that history gives at some point between the call's arrival and now: `Written(r)` is the
   * caller's own commit since it arrived, `Unchanged(r)` and `Conflict(r)` are true of the version
   * there, and a snapshot or a read shows that version, the snapshot with the temporaries of
   * `.revision` that were then left beside it.
   */
  lemma Linearisable(s: State, actions: seq<Action>)
    requires Init(s) && Legal(s, actions)
    ensures
      var t := After(s, actions);
      && t.versions != [] && t.versions[0] == s.versions[0]
      && Lineage(t.versions, t.commits)
      && forall pid :: pid in t.procs ==>
           && Honest(t.versions, t.commits, pid, t.procs[pid], t.procs[pid].outcome)
           && (t.procs[pid].outcome.Saw? ==> ShowsVersion(t, t.procs[pid]))
  {
    InitHolds(s);
    RunKeepsInv(s, actions);
    RunKeepsStrays(s, actions);
    HistoryOnlyGrows(s, actions);
    var t := After(s, actions);
    forall pid | pid in t.procs
      ensures Honest(t.versions, t.commits, pid, t.procs[pid], t.procs[pid].outcome)
      ensures t.procs[pid].outcome.Saw? ==> ShowsVersion(t, t.procs[pid])
    {
      assert ProcInv(t, pid);
      if t.procs[pid].outcome.Saw? {
        SnapshotShows(t, pid);
      }
    }
  }

  /** Whoever arrived during the run arrived after every commit made before it. */
  ghost predicate Later(s: State, t: State, pid: Pid) {
    pid in t.procs && |s.commits| <= t.procs[pid].since
  }

  lemma StepSince(s: State, a: Action, pid: Pid)
    requires LocksOk(s) && Enabled(s, a) && pid in Do(s, a).procs
    ensures if pid in s.procs then Do(s, a).procs[pid].since == s.procs[pid].since && !a.Crash? else Later(s, Do(s, a), pid)
  {
    if a.Advance? || a.Fail? {
      StepMoves(s, a);
    }
  }

  lemma {:induction false} ArrivedLater(s: State, actions: seq<Action>, pid: Pid)
    requires Inv(s) && Legal(s, actions) && pid in After(s, actions).procs
    requires pid !in s.procs || Crash in actions
    ensures Later(s, After(s, actions), pid)
    decreases |actions|
  {
    var a, rest := actions[0], actions[1..];
    var next := Do(s, a);
    ActionKeeps(s, a);
    HistoryStep(s, a);
    assert actions == [a] + rest;
    if pid !in next.procs || Crash in rest {
      ArrivedLater(next, rest, pid);
    } else {
      StepSince(s, a, pid);
      SinceStays(next, rest, pid);
    }
  }

  /** A call stays while its process lives. */
  lemma CallStays(s: State, a: Action, pid: Pid)
    requires LocksOk(s) && Enabled(s, a) && !a.Crash? && pid in s.procs
    ensures pid in Do(s, a).procs
    ensures Do(s, a).procs[pid].call == s.procs[pid].call && Do(s, a).procs[pid].since == s.procs[pid].since
    ensures Do(s, a).procs[pid].outcome != s.procs[pid].outcome ==> (a.Advance? || a.Fail?) && a.pid == pid
  {
    if a.Advance? || a.Fail? {
      StepMoves(s, a);
    }
  }

  lemma {:induction false} SinceStays(s: State, actions: seq<Action>, pid: Pid)
    requires Inv(s) && Legal(s, actions) && pid in s.procs && Crash !in actions
    ensures pid in After(s, actions).procs && After(s, actions).procs[pid].since == s.procs[pid].since
    decreases |actions|
  {
    if actions != [] {
      var a := actions[0];
      assert actions == [a] + actions[1..];
      ActionKeeps(s, a);
      CallStays(s, a, pid);
      SinceStays(Do(s, a), actions[1..], pid);
    }
  }

  /**
   * Real-time order: if one call has its answer before another arrives, crashes and reused names
   * notwithstanding, the first one's point in the history comes no later than the second's.
   */
  lemma RealTimeOrder(s: State, first: seq<Action>, rest: seq<Action>, a: Pid, b: Pid) returns (m: nat, n: nat)
    requires Init(s) && Legal(s, first) && Legal(After(s, first), rest)
    requires
      var now := After(s, first);
      var t := After(now, rest);
      && a in now.procs && Tells(now.procs[a].outcome) && b in t.procs && Tells(t.procs[b].outcome)
      && (b !in now.procs || Crash in rest)
    ensures
      var now := After(s, first);
      var t := After(now, rest);
      && AnswersAt(t.versions, t.commits, a, now.procs[a].call, now.procs[a].outcome, m)
      && AnswersAt(t.versions, t.commits, b, t.procs[b].call, t.procs[b].outcome, n)
      && m <= n && (t.procs[b].outcome.Written? ==> m < n)
  {
    InitHolds(s);
    RunKeepsInv(s, first);
    var now := After(s, first);
    RunKeepsInv(now, rest);
    m := PointBefore(now, rest, a);
    n := PointOf(After(now, rest), b);
    ArrivedLater(now, rest, b);
  }

  lemma PointOf(s: State, pid: Pid) returns (n: nat)
    requires Inv(s) && pid in s.procs && Tells(s.procs[pid].outcome)
    ensures AnswersAt(s.versions, s.commits, pid, s.procs[pid].call, s.procs[pid].outcome, n)
    ensures InTime(s.procs[pid], s.procs[pid].outcome, n) && n < |s.versions| == |s.commits| + 1
  {
    assert ProcInv(s, pid);
    n :| AnswersAt(s.versions, s.commits, pid, s.procs[pid].call, s.procs[pid].outcome, n)
         && InTime(s.procs[pid], s.procs[pid].outcome, n);
  }

  lemma PointBefore(s: State, actions: seq<Action>, pid: Pid) returns (n: nat)
    requires Inv(s) && Legal(s, actions) && pid in s.procs && Tells(s.procs[pid].outcome)
    ensures
      var t := After(s, actions);
      AnswersAt(t.versions, t.commits, pid, s.procs[pid].call, s.procs[pid].outcome, n) && n <= |s.commits|
  {
    n := PointOf(s, pid);
    HistoryOnlyGrows(s, actions);
    var t := After(s, actions);
    AnswerStands(s.versions, s.commits, t.versions, t.commits, pid, s.procs[pid].call, s.procs[pid].outcome, n);
  }

  lemma {:induction false} RevisionsAreConsecutive(versions: seq<Version>, commits: seq<Commit>, n: nat)
    requires Lineage(versions, commits) && n < |versions|
    ensures versions[n].revision == versions[0].revision + n
  {
    if n > 0 {
      RevisionsAreConsecutive(versions, commits, n - 1);
      assert Follows(versions[n - 1], commits[n - 1].req, versions[n]);
    }
  }

  /**
   * Whoever is told `Written` or `Unchanged` finds its files as it asked for them in the version at its
   * point, so the ETags the answer carries, which are those of what was asked for, are that version's.
   */
  lemma AnswerHolds(versions: seq<Version>, commits: seq<Commit>, pid: Pid, call: Call, o: Outcome, n: nat, i: nat)
    requires Lineage(versions, commits) && AnswersAt(versions, commits, pid, call, o, n) && (o.Written? || o.Unchanged?)
    requires i < |call.req.muts| && (o.Unchanged? ==> DistinctPaths(call.req.muts))
    ensures EtagAt(versions[n].files, call.req.muts[i].path) == HashOf(call.req.muts[i].content)
  {
    var muts := call.req.muts;
    var before := if o.Written? then versions[n - 1].files else versions[n].files;
    if o.Written? {
      assert Follows(versions[n - 1], commits[n - 1].req, versions[n]);
    }
    DistinctTargets(muts);
    OverlayAt(before, TargetsOf(muts), muts[i].path);
    assert TargetsOf(muts)[i].path == muts[i].path;
  }

  /** Two calls, of one process or of two, are never told they wrote the same revision. */
  lemma WrittenRevisionsAreUnique(s: State, first: seq<Action>, rest: seq<Action>, a: Pid, b: Pid)
    requires Init(s) && Legal(s, first) && Legal(After(s, first), rest)
    requires
      var now := After(s, first);
      var t := After(now, rest);
      && a in now.procs && now.procs[a].outcome.Written? && b in t.procs && t.procs[b].outcome.Written?
      && (a != b || Crash in rest)
    ensures After(s, first).procs[a].outcome.revision != After(After(s, first), rest).procs[b].outcome.revision
  {
    InitHolds(s);
    RunKeepsInv(s, first);
    var now := After(s, first);
    RunKeepsInv(now, rest);
    var t := After(now, rest);
    var m := PointBefore(now, rest, a);
    var n := PointOf(t, b);
    if a == b {
      ArrivedLater(now, rest, b);
    }
    TwoWrites(t.versions, t.commits, a, now.procs[a], m, b, t.procs[b], n);
  }

  lemma TwoWrites(versions: seq<Version>, commits: seq<Commit>, a: Pid, p: Proc, m: nat, b: Pid, q: Proc, n: nat)
    requires Lineage(versions, commits) && p.outcome.Written? && q.outcome.Written? && (a != b || m < n)
    requires AnswersAt(versions, commits, a, p.call, p.outcome, m) && AnswersAt(versions, commits, b, q.call, q.outcome, n)
    ensures p.outcome.revision != q.outcome.revision
  {
    RevisionsAreConsecutive(versions, commits, m);
    RevisionsAreConsecutive(versions, commits, n);
  }

  /**
   * This action leaves a temporary behind: it kills the process between creating one and renaming it, or
   * what was about to rename one throws and the removal fails too.
   */
  ghost predicate Tears(s: State, a: Action) {
    match a
    case Crash => Opened(s) != []
    case Fail(pid, harm) =>
      harm && pid in s.procs && s.procs[pid].pc.Publishing? && OpenOf(s.procs[pid].pc.script) != []
    case RecoverFails(harm) => harm && s.boot.Recovering? && OpenOf(s.boot.script) != []
    case _ => false
  }

  /** How often that happens in a run. */
  ghost function TearsIn(s: State, actions: seq<Action>): nat
    requires Legal(s, actions)
    decreases |actions|
  {
    if actions == [] then 0
    else (if Tears(s, actions[0]) then 1 else 0) + TearsIn(Do(s, actions[0]), actions[1..])
  }

  lemma TornStep(s: State, a: Action)
    requires Enabled(s, a)
    ensures s.torn <= Do(s, a).torn && |Do(s, a).torn| == |s.torn| + if Tears(s, a) then 1 else 0
  {
    if a.Advance? {
      TornStays(s, a.pid, a.tx, a.how);
    }
  }

  lemma TornStays(s: State, pid: Pid, tx: TxId, how: Manner)
    requires CanAdvance(s, pid)
    ensures Go(s, pid, tx, how).torn == s.torn
  {
  }

  lemma {:induction false} TornCount(s: State, actions: seq<Action>)
    requires Legal(s, actions)
    ensures s.torn <= After(s, actions).torn && |After(s, actions).torn| == |s.torn| + TearsIn(s, actions)
    decreases |actions|
  {
    if actions != [] {
      TornStep(s, actions[0]);
      TornCount(Do(s, actions[0]), actions[1..]);
    }
  }

  /** One recovery that finishes, on the disk of a process killed here. */
  lemma RecoveryRestores(d: Disk, v: Version, left: seq<Temp>, listing: seq<Entry>)
    requires Recoverable(d) && Denotes(d, v) && NoDots(v.files) && d.strays == LeftBy(left) && DistinctTemps(left)
    requires Lists(listing, d) && FreshTemps(listing, d)
    ensures
      var e := Run(d, RecoverScript(d, listing));
      && Version(e.revision, e.files) == v && e.dirs == map[] && e.strays == LeftBy(left)
      && |e.strays| == |left| && (Visible(e) == v.files <==> left == [])
  {
    LastRecovery(d, listing, v);
    LeftByAre(left);
    BesideSplits(v.files, LeftBy(left));
  }

  /**
   * Crash atomicity of the whole engine: kill the process in any reachable state and let one
   * recovery finish. The disk then holds the last committed version at its revision, no journal, and
   * one temporary more than at the start for each time an action, the kill included, left one behind.
   * The tree is exactly that version if and only if there never was any.
   */
  lemma CrashLosesNothing(s: State, actions: seq<Action>, listing: seq<Entry>)
    requires Init(s) && Legal(s, actions)
    requires Lists(listing, After(s, actions).disk) && FreshTemps(listing, After(s, actions).disk)
    ensures
      var t := After(s, actions);
      var d := Run(t.disk, RecoverScript(t.disk, listing));
      var left := t.torn + Opened(t);
      && t.versions != [] && Version(d.revision, d.files) == t.Last() && d.dirs == map[]
      && d.strays == LeftBy(left) && DistinctTemps(left) && s.torn <= left
      && |d.strays| == |s.torn| + TearsIn(s, actions) + (if Tears(t, Crash) then 1 else 0)
      && (Visible(d) == t.Last().files <==> s.torn == [] && TearsIn(s, actions) == 0 && !Tears(t, Crash))
  {
    InitHolds(s);
    RunKeepsInv(s, actions);
    RunKeepsStrays(s, actions);
    TornCount(s, actions);
    var t := After(s, actions);
    RecoveryRestores(t.disk, t.Last(), t.torn + Opened(t), listing);
    OneOpened(t);
  }

  lemma OneOpened(s: State)
    ensures |Opened(s)| == if Tears(s, Crash) then 1 else 0
  {
  }

  /**
   * Whoever may read finds no half-done transaction: the last committed version and, beside it, the
   * temporaries ever left.
   */
  lemma ReadersSeeCommitted(s: State, actions: seq<Action>, pid: Pid)
    requires Init(s) && Legal(s, actions)
    requires
      var t := After(s, actions);
      && pid in t.procs && InPub(t.procs[pid].pc) && !t.procs[pid].pc.Publishing?
      && Heads(t.pub, pid) && !t.broken
    ensures
      var t := After(s, actions);
      && Quiet(t.disk) && t.versions != [] && Version(t.disk.revision, t.disk.files) == t.Last()
      && t.disk.strays == LeftBy(t.torn) && |t.disk.strays| == |s.torn| + TearsIn(s, actions)
      && (Visible(t.disk) == t.Last().files <==> s.torn == [] && TearsIn(s, actions) == 0)
  {
    InitHolds(s);
    RunKeepsInv(s, actions);
    RunKeepsStrays(s, actions);
    TornCount(s, actions);
    var t := After(s, actions);
    LiveFilesAreLast(t, pid);
    OnePublisher(t, pid);
    OnlyThePublisher(t);
    assert t.torn + [] == t.torn;
    LeftByAre(t.torn);
    BesideSplits(t.disk.files, t.disk.strays);
  }

  lemma LeftIsOnDisk(s: State, temp: Temp)
    requires StrayInv(s) && temp in s.torn
    ensures temp.Path() in s.disk.strays
  {
    var all := s.torn + Opened(s);
    var i :| 0 <= i < |s.torn| && s.torn[i] == temp;
    LeftByAre(all);
    assert all[i] == temp;
  }

  /** A temporary left behind is never removed again, and no call can touch it. */
  lemma TemporariesStay(s: State, first: seq<Action>, rest: seq<Action>, temp: Temp)
    requires Init(s) && Legal(s, first) && Legal(After(s, first), rest) && temp in After(s, first).torn
    ensures temp.Path() in After(After(s, first), rest).disk.strays && DotFile(temp.Path())
  {
    InitHolds(s);
    RunKeepsInv(s, first);
    RunKeepsStrays(s, first);
    var now := After(s, first);
    RunKeepsStrays(now, rest);
    TornCount(now, rest);
    LeftIsOnDisk(After(now, rest), temp);
    assert temp.Path().name[0] == ".revision."[0];
  }

  /** A call that is staging its payloads, or has staged them all and waits to publish. */
  predicate Prepared(p: Proc) {
    p.pc.Staging? || (p.pc.Entering? && p.tx.Some?)
  }

  /**
   * Journal discipline: at most one intent is on disk, and its transaction can be finished; while
   * recovery sweeps orphans no call has got past waiting for it, so none has a transaction to lose;
   * and a prepared transaction's directory stays until its call publishes.
   */
  lemma JournalDiscipline(s: State, actions: seq<Action>)
    requires Init(s) && Legal(s, actions)
    ensures
      var t := After(s, actions);
      && Recoverable(t.disk)
      && (t.boot.Recovering? ==> forall pid :: pid in t.procs ==> t.procs[pid].pc.Booting? || t.procs[pid].pc.Finished?)
      && (forall pid :: pid in t.procs && Prepared(t.procs[pid]) ==>
            t.procs[pid].tx.Some? && t.procs[pid].tx.value in t.disk.dirs)
  {
    InitHolds(s);
    RunKeepsInv(s, actions);
    var t := After(s, actions);
    forall pid | pid in t.procs && Prepared(t.procs[pid])
      ensures t.procs[pid].tx.Some? && t.procs[pid].tx.value in t.disk.dirs
    {
      assert ProcInv(t, pid);
    }
  }

  /** In every reachable state with recovery over, some unfinished call can move, if there is one. */
  lemma NeverDeadlocked(s: State, actions: seq<Action>, pid: Pid) returns (mover: Pid)
    requires Init(s) && Legal(s, actions)
    requires Unfinished(After(s, actions), pid)
    requires After(s, actions).boot.Up? || After(s, actions).boot.Wedged?
    ensures Unfinished(After(s, actions), mover) && CanAdvance(After(s, actions), mover)
  {
    InitHolds(s);
    RunKeepsInv(s, actions);
    mover := SomeCallCanAdvance(After(s, actions), pid);
  }
}
