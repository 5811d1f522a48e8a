/** Committed changes followed to the Git commits that hold and name them, over every run. */
module AttributionHistory {
  import opened Wrappers
  import opened Documents
  import opened Storage
  import opened Requests
  import opened LockTable
  import opened Engine
  import opened EngineLocks
  import opened EngineHistory
  import opened EngineSteps
  import opened EngineStrays
  import EngineTheorems
  import opened EngineEvents
  import Attribution
  import Text
  import opened AttributionRuns

  // ---- what the engine's actions leave as it was ----

  lemma ScriptLogs(d: Disk, step: Step)
    ensures d.log <= Exec(d, step).log
  {
  }

  lemma EnterLogs(s: State, pid: Pid, how: Manner)
    requires CanAdvance(s, pid) && s.procs[pid].pc.Entering?
    ensures Enter(s, pid, how).disk.log == s.disk.log
  {
  }

  lemma OthersLog(s: State, pid: Pid, tx: TxId, how: Manner)
    requires CanAdvance(s, pid) && !s.procs[pid].pc.Entering? && !s.procs[pid].pc.Publishing?
    ensures Go(s, pid, tx, how).disk.log == s.disk.log
  {
  }

  /** The log of events only grows. */
  lemma LogGrows(s: State, a: Action)
    requires Enabled(s, a)
    ensures s.disk.log <= Do(s, a).disk.log
  {
    match a
    case Advance(pid, tx, how) =>
      if s.procs[pid].pc.Entering? {
        EnterLogs(s, pid, how);
      } else if s.procs[pid].pc.Publishing? {
        if s.procs[pid].pc.script != [] {
          ScriptLogs(s.disk, s.procs[pid].pc.script[0]);
        }
      } else {
        OthersLog(s, pid, tx, how);
      }
    case Recover =>
      if s.boot.script != [] {
        ScriptLogs(s.disk, s.boot.script[0]);
      }
    case _ =>
  }

  lemma OnlyLookingSees(s: State, pid: Pid, tx: TxId, how: Manner)
    requires LocksOk(s) && CanAdvance(s, pid) && s.procs[pid].call == Snapshot
    ensures
      var o := Go(s, pid, tx, how).procs[pid].outcome;
      o.Saw? && o != s.procs[pid].outcome ==>
        s.procs[pid].pc.Looking? && !s.broken && o.version == Version(s.disk.revision, Visible(s.disk))
  {
    assert PointOk(s.procs[pid], s.table.wants[pid]) && ProcOk(s.procs[pid]);
  }

  // ---- the invariant ----

  /**
   * The snapshot is the `n`-th version and beside it the first `k` of the temporaries ever left: that
   * version alone if and only if there were none.
   */
  ghost predicate Holds(db: State, v: Version, n: nat, k: nat) {
    && n < |db.versions| && k <= |db.torn|
    && v == Version(db.versions[n].revision, db.versions[n].files + LeftBy(db.torn[..k]))
    && (v == db.versions[n] <==> k == 0)
  }

  /** It was taken when all that led to that version had been handed to `onWrite`. */
  ghost predicate Shows(db: State, v: Version, m: nat, k: nat) {
    && Holds(db, v, m, k) && |db.versions| == |db.commits| + 1
    && forall n: nat :: n < m ==> Reported(db.disk.log, db.versions[n], db.commits[n].req, db.versions[n + 1])
  }

  /** And when `had` temporaries, at least, had been left. */
  ghost predicate Shown(db: State, v: Version, had: nat) {
    exists m: nat, k: nat :: had <= k && Shows(db, v, m, k)
  }

  ghost predicate InHistory(db: State, v: Version) {
    exists n: nat, k: nat :: Holds(db, v, n, k)
  }

  ghost predicate NotAfter(log: seq<Event>, lines: seq<Line>, revision: nat) {
    forall line :: line in lines ==> line < |log| && log[line].revision <= revision
  }

  ghost predicate AskedInTime(s: Pipeline, pid: Pid, had: nat)
    requires s.db.versions != []
  {
    && pid in s.db.procs
    && var p := s.db.procs[pid];
       && p.call == Snapshot && p.since < |s.db.versions| && had <= |s.db.torn|
       && NotAfter(s.db.disk.log, s.book.sending, s.db.versions[p.since].revision)
       && (p.outcome.Saw? ==> Shown(s.db, p.outcome.version, had))
  }

  /** What the phase says about the snapshot. */
  ghost predicate SnapshotOk(s: Pipeline) {
    && s.db.versions != []
    && match s.book.phase
       case Rotated(_, had) => had <= |s.db.torn|
       case Asking(_, had, pid) => AskedInTime(s, pid, had)
       case Mirrored(_, had, v) => Shown(s.db, v, had) && NotAfter(s.db.disk.log, s.book.sending, v.revision)
       case Draining(_, had, v) => Shown(s.db, v, had) && NotAfter(s.db.disk.log, s.book.sending, v.revision)
       case Committing(_, had, v, lines) => Shown(s.db, v, had) && NotAfter(s.db.disk.log, lines, v.revision)
       case _ => true
  }

  /** A committed version, no earlier than a change of these lines. */
  ghost predicate InHistorySince(db: State, v: Version, lines: seq<Line>) {
    InHistory(db, v) && NotAfter(db.disk.log, lines, v.revision)
  }

  ghost predicate ClearingOk(s: Pipeline, drop: Clearing) {
    && InHistorySince(s.db, drop.version, drop.lines)
    && drop.after <= |s.book.git| && drop.version.files == s.book.Tree(drop.after)
  }

  /** Git's commits hold committed versions, none of them before a change it names. */
  ghost predicate GitOk(s: Pipeline) {
    && (forall c :: 0 <= c < |s.book.git| ==> InHistorySince(s.db, s.book.git[c].version, s.book.git[c].lines))
    && (forall c :: 0 <= c < |s.book.cleared| ==> ClearingOk(s, s.book.cleared[c]))
  }

  /** While a synchronization works on them, `sending` holds old lines, `pending` new ones. */
  ghost predicate Divided(b: Book) {
    b.phase.Fresh() ==>
      && b.phase.upTo <= b.count
      && (forall line :: line in b.sending ==> line < b.phase.upTo)
      && (forall line :: line in b.pending ==> line >= b.phase.upTo)
      && (forall line: Line :: b.Settled(line) ==> line < b.phase.upTo)
  }

  ghost predicate Linked(s: Pipeline) {
    && Inv(s.db) && StrayInv(s.db) && EventsInv(s.db, 0) && s.book.count == |s.db.disk.log|
    && Tracked(s.book) && Divided(s.book) && SnapshotOk(s) && GitOk(s)
  }

  /** A new installation: nothing was ever handed to `onWrite`. */
  ghost predicate Installed(s: Pipeline) {
    && EngineTheorems.Init(s.db) && s.db.disk.log == []
    && s.book == Book([], [], s.book.base, [], Killed, 0, [], false, {})
  }

  lemma StartLinked(s: Pipeline)
    requires Installed(s)
    ensures Linked(s) && Conserved(s.book)
  {
    EngineTheorems.InitHolds(s.db);
    StartAccounts(s.db);
  }

  lemma StartAccounts(s: State)
    requires EngineTheorems.Init(s) && s.disk.log == []
    ensures EventsInv(s, 0)
  {
  }

  // ---- engine actions ----

  /** What the engine's history holds only grows. */
  ghost predicate Grows(s: State, t: State) {
    && s.versions <= t.versions && s.commits <= t.commits && s.disk.log <= t.disk.log && s.torn <= t.torn
    && |t.versions| == |t.commits| + 1
  }

  lemma ActionLinked(s: State, a: Action)
    requires Inv(s) && StrayInv(s) && EventsInv(s, 0) && Enabled(s, a)
    ensures Inv(Do(s, a)) && StrayInv(Do(s, a)) && EventsInv(Do(s, a), 0) && Grows(s, Do(s, a))
  {
    ActionKeeps(s, a);
    ActionLeaves(s, a);
    ActionAccounts(s, a, 0);
    EngineTheorems.HistoryStep(s, a);
    EngineTheorems.TornStep(s, a);
    LogGrows(s, a);
  }

  lemma HoldsStays(s: State, t: State, v: Version, n: nat, k: nat)
    requires Holds(s, v, n, k) && s.versions <= t.versions && s.torn <= t.torn
    ensures Holds(t, v, n, k)
  {
    assert t.versions[n] == s.versions[n] && t.torn[..k] == s.torn[..k];
  }

  lemma InHistoryStays(s: State, t: State, v: Version)
    requires InHistory(s, v) && s.versions <= t.versions && s.torn <= t.torn
    ensures InHistory(t, v)
  {
    var n: nat, k: nat :| Holds(s, v, n, k);
    HoldsStays(s, t, v, n, k);
  }

  lemma ShownStays(s: State, t: State, v: Version, had: nat)
    requires Shown(s, v, had) && Grows(s, t)
    ensures Shown(t, v, had)
  {
    var m: nat, k: nat :| had <= k && Shows(s, v, m, k);
    HoldsStays(s, t, v, m, k);
    forall n: nat | n < m ensures Reported(t.disk.log, t.versions[n], t.commits[n].req, t.versions[n + 1]) {
      ReportedGrows(s.disk.log, t.disk.log, s.versions[n], s.commits[n].req, s.versions[n + 1]);
    }
    assert Shows(t, v, m, k);
  }

  /** A version and temporaries beside it. */
  lemma BesideHolds(s: State, v: Version)
    requires s.versions != [] && NoDots(s.Last().files)
    requires v == Version(s.Last().revision, s.Last().files + LeftBy(s.torn))
    ensures Holds(s, v, |s.versions| - 1, |s.torn|)
  {
    AloneIff(s.Last().files, s.torn);
    assert s.torn[..|s.torn|] == s.torn;
  }

  lemma AloneIff(files: Files, temps: seq<Temp>)
    requires NoDots(files)
    ensures files + LeftBy(temps) == files <==> temps == []
  {
    LeftByAre(temps);
    BesideSplits(files, LeftBy(temps));
    SomeLeft(temps);
  }

  /** A healthy look shows the last version and all the temporaries, and finds every event handed over. */
  lemma LookShows(s: State, pid: Pid)
    requires Inv(s) && StrayInv(s) && AllAccounted(s) && pid in s.procs && s.procs[pid].pc.Looking?
    requires CanAdvance(s, pid) && !s.broken
    ensures Shown(s, Version(s.disk.revision, Visible(s.disk)), |s.torn|)
  {
    LiveFilesAreLast(s, pid);
    QuietIsReported(s);
    OnePublisher(s, pid);
    OnlyThePublisher(s);
    assert s.torn + [] == s.torn;
    BesideHolds(s, Version(s.disk.revision, Visible(s.disk)));
    assert Shows(s, Version(s.disk.revision, Visible(s.disk)), |s.versions| - 1, |s.torn|);
  }

  lemma FromEarlier(s: State, v: Version, had: nat, from: nat)
    requires Shown(s, v, from) && had <= from
    ensures Shown(s, v, had)
  {
    var m: nat, k: nat :| from <= k && Shows(s, v, m, k);
  }

  lemma AskedStays(s: Pipeline, a: Action, t: Pipeline, pid: Pid, had: nat)
    requires Inv(s.db) && StrayInv(s.db) && AllAccounted(s.db) && Grows(s.db, t.db)
    requires Enabled(s.db, a) && !a.Crash? && AskedInTime(s, pid, had)
    requires t.db == Do(s.db, a) && t.book.sending == s.book.sending
    ensures AskedInTime(t, pid, had)
  {
    EngineTheorems.CallStays(s.db, a, pid);
    var p, q := s.db.procs[pid], t.db.procs[pid];
    if q.outcome.Saw? {
      if q.outcome != p.outcome {
        SawShown(s.db, a, pid, had);
      }
      ShownStays(s.db, t.db, q.outcome.version, had);
    }
  }

  lemma SawShown(s: State, a: Action, pid: Pid, had: nat)
    requires Inv(s) && StrayInv(s) && AllAccounted(s) && Enabled(s, a) && !a.Crash?
    requires pid in s.procs && s.procs[pid].call == Snapshot && had <= |s.torn|
    requires pid in Do(s, a).procs && Do(s, a).procs[pid].outcome.Saw?
    requires Do(s, a).procs[pid].outcome != s.procs[pid].outcome
    ensures Shown(s, Do(s, a).procs[pid].outcome.version, had)
  {
    EngineTheorems.CallStays(s, a, pid);
    if a.Advance? {
      OnlyLookingSees(s, pid, a.tx, a.how);
      LookShows(s, pid);
      FromEarlier(s, Version(s.disk.revision, Visible(s.disk)), had, |s.torn|);
    }
  }

  lemma InHistorySinceStays(s: State, t: State, v: Version, lines: seq<Line>)
    requires InHistorySince(s, v, lines) && s.versions <= t.versions && s.torn <= t.torn && s.disk.log <= t.disk.log
    ensures InHistorySince(t, v, lines)
  {
    InHistoryStays(s, t, v);
  }

  lemma GitStays(s: Pipeline, t: Pipeline)
    requires GitOk(s) && s.db.versions <= t.db.versions && s.db.disk.log <= t.db.disk.log && s.db.torn <= t.db.torn
    requires t.book.git == s.book.git && t.book.cleared == s.book.cleared && t.book.base == s.book.base
    ensures GitOk(t)
  {
    forall c | 0 <= c < |t.book.git| ensures InHistorySince(t.db, t.book.git[c].version, t.book.git[c].lines) {
      InHistorySinceStays(s.db, t.db, s.book.git[c].version, s.book.git[c].lines);
    }
    forall c | 0 <= c < |t.book.cleared| ensures ClearingOk(t, t.book.cleared[c]) {
      assert ClearingOk(s, s.book.cleared[c]);
      InHistorySinceStays(s.db, t.db, s.book.cleared[c].version, s.book.cleared[c].lines);
    }
  }

  lemma SnapshotStays(s: Pipeline, t: Pipeline)
    requires SnapshotOk(s) && t.book.sending == s.book.sending && t.book.phase == s.book.phase && Grows(s.db, t.db)
    requires s.book.phase.Asking? ==> AskedInTime(t, s.book.phase.pid, s.book.phase.had)
    ensures SnapshotOk(t)
  {
    match s.book.phase
    case Mirrored(_, had, v) => ShownStays(s.db, t.db, v, had);
    case Draining(_, had, v) => ShownStays(s.db, t.db, v, had);
    case Committing(_, had, v, _) => ShownStays(s.db, t.db, v, had);
    case _ =>
  }

  lemma AppendDivides(b: Book, count: nat)
    requires Divided(b) && b.count <= count
    ensures Divided(Append(b, count))
  {
    var t := Append(b, count);
    assert forall line :: t.Settled(line) <==> b.Settled(line);
    forall line | line in t.pending ensures line in b.pending || b.count <= line {
    }
  }

  lemma DbLinked(s: Pipeline, a: Action)
    requires Linked(s) && CanOccur(s, Db(a))
    ensures Linked(Then(s, Db(a)))
  {
    var t := Then(s, Db(a));
    ActionLinked(s.db, a);
    StepTracks(s, Db(a));
    AppendDivides(s.book, |t.db.disk.log|);
    if s.book.phase.Asking? {
      AskedStays(s, a, t, s.book.phase.pid, s.book.phase.had);
    }
    SnapshotStays(s, t);
    GitStays(s, t);
  }

  // ---- the synchronization's own steps ----

  lemma RevisionBehindLast(s: State)
    requires DiskInv(s)
    ensures s.disk.revision <= s.Last().revision
  {
    if !Quiet(s.disk) {
      var id :| Pending(s.disk, id);
      assert IntentOk(s.disk, id);
    }
  }

  lemma AskLinked(s: Pipeline, pid: Pid)
    requires Linked(s) && CanOccur(s, Ask(pid))
    ensures Linked(Then(s, Ask(pid)))
  {
    var t := Then(s, Ask(pid));
    var a := Arrive(pid, Snapshot, []);
    ActionLinked(s.db, a);
    StepTracks(s, Ask(pid));
    AskDivides(s.book, pid);
    AskedNow(s.db, s.book, pid);
    GitStays(s, t);
  }

  lemma AskDivides(b: Book, pid: Pid)
    requires Divided(b) && b.phase.Rotated?
    ensures Divided(b.(phase := Asking(b.phase.upTo, b.phase.had, pid)))
  {
    assert forall line :: b.(phase := Asking(b.phase.upTo, b.phase.had, pid)).Settled(line) <==> b.Settled(line);
  }

  /** Whatever is being sent, the call that asks comes after it. */
  lemma AskedNow(s: State, b: Book, pid: Pid)
    requires DiskInv(s) && Lineage(s.versions, s.commits) && Told(s.versions, s.disk, 0) && b.count == |s.disk.log|
    requires Within(b, b.sending) && b.phase.Rotated? && b.phase.had <= |s.torn|
    requires Enabled(s, Arrive(pid, Snapshot, []))
    ensures AskedInTime(Pipeline(Do(s, Arrive(pid, Snapshot, [])), b), pid, b.phase.had)
  {
    RevisionBehindLast(s);
    assert s.versions[|s.commits|] == s.Last();
  }

  lemma SightInTime(s: Pipeline, pid: Pid)
    requires Linked(s) && s.book.phase.Asking? && s.book.phase.pid == pid && CanContinue(s)
    ensures
      var v := s.db.procs[pid].outcome.version;
      Shown(s.db, v, s.book.phase.had) && NotAfter(s.db.disk.log, s.book.sending, v.revision)
  {
    var p := s.db.procs[pid];
    assert AskedInTime(s, pid, s.book.phase.had) && ProcInv(s.db, pid);
    var n: nat :| AnswersAt(s.db.versions, s.db.commits, pid, p.call, p.outcome, n) && InTime(p, p.outcome, n);
    EngineTheorems.RevisionsAreConsecutive(s.db.versions, s.db.commits, n);
    EngineTheorems.RevisionsAreConsecutive(s.db.versions, s.db.commits, p.since);
  }

  lemma ShownIsInHistory(s: State, v: Version, had: nat)
    requires Shown(s, v, had)
    ensures InHistory(s, v)
  {
    var m: nat, k: nat :| had <= k && Shows(s, v, m, k);
  }

  lemma ClearingStays(s: Pipeline, b: Book, drop: Clearing)
    requires ClearingOk(s, drop) && b.base == s.book.base && s.book.git <= b.git
    ensures ClearingOk(s.(book := b), drop)
  {
    assert b.Tree(drop.after) == s.book.Tree(drop.after);
  }

  lemma CommitLinked(s: Pipeline)
    requires GitOk(s) && s.book.phase.Committing? && SnapshotOk(s)
    ensures GitOk(s.(book := Continued(s)))
  {
    var b := s.book;
    var t := s.(book := Continued(s));
    ShownIsInHistory(s.db, b.phase.version, b.phase.had);
    forall c | 0 <= c < |t.book.git| ensures InHistorySince(t.db, t.book.git[c].version, t.book.git[c].lines) {
      if c < |b.git| {
        assert t.book.git[c] == b.git[c];
      }
    }
    forall c | 0 <= c < |t.book.cleared| ensures ClearingOk(t, t.book.cleared[c]) {
      assert ClearingOk(s, b.cleared[c]);
      ClearingStays(s, t.book, b.cleared[c]);
    }
  }

  lemma CompareLinked(s: Pipeline)
    requires GitOk(s) && s.book.phase.Mirrored? && SnapshotOk(s)
    ensures GitOk(s.(book := Continued(s)))
  {
    var b := s.book;
    var t := s.(book := Continued(s));
    ShownIsInHistory(s.db, b.phase.version, b.phase.had);
    forall c | 0 <= c < |t.book.cleared| ensures ClearingOk(t, t.book.cleared[c]) {
      if c < |b.cleared| {
        assert ClearingOk(s, b.cleared[c]);
        ClearingStays(s, t.book, b.cleared[c]);
        assert t.book.cleared[c] == b.cleared[c];
      } else {
        assert t.book.cleared[c] == Clearing(b.phase.version, b.sending, |b.git|);
      }
    }
  }

  lemma ContinueDivides(s: Pipeline)
    requires Tracked(s.book) && Divided(s.book) && CanContinue(s)
    ensures Divided(Continued(s))
  {
    var t := Continued(s);
    if t.phase.Fresh() {
      assert forall line :: t.Settled(line) <==> s.book.Settled(line);
    }
  }

  lemma ContinueLinked(s: Pipeline)
    requires Linked(s) && CanContinue(s)
    ensures Linked(Then(s, Continue))
  {
    StepTracks(s, Continue);
    ContinueDivides(s);
    ContinueShows(s);
    ContinueGit(s);
  }

  lemma ContinueShows(s: Pipeline)
    requires Linked(s) && CanContinue(s)
    ensures SnapshotOk(Then(s, Continue))
  {
    if s.book.phase.Asking? {
      SightInTime(s, s.book.phase.pid);
    }
  }

  lemma ContinueGit(s: Pipeline)
    requires GitOk(s) && SnapshotOk(s) && CanContinue(s)
    ensures GitOk(Then(s, Continue))
  {
    if s.book.phase.Mirrored? {
      CompareLinked(s);
    } else if s.book.phase.Committing? {
      CommitLinked(s);
    } else {
      GitStays(s, Then(s, Continue));
    }
  }

  lemma KillLinked(s: Pipeline)
    requires Linked(s)
    ensures Linked(Then(s, Kill))
  {
    ActionLinked(s.db, Crash);
    StepTracks(s, Kill);
    GitStays(s, Then(s, Kill));
  }

  lemma StepLinked(s: Pipeline, e: Occurrence)
    requires Linked(s) && CanOccur(s, e)
    ensures Linked(Then(s, e))
  {
    match e
    case Db(a) => DbLinked(s, a);
    case Ask(pid) => AskLinked(s, pid);
    case Continue => ContinueLinked(s);
    case Kill => KillLinked(s);
    case _ => TurnLinked(s, e);
  }

  lemma TurnLinked(s: Pipeline, e: Occurrence)
    requires Linked(s) && CanOccur(s, e) && (e.Begin? || e.Fails? || e.Boot?)
    ensures Linked(Then(s, e))
  {
    StepTracks(s, e);
    GitStays(s, Then(s, e));
  }

  lemma {:induction false} RunLinked(s: Pipeline, events: seq<Occurrence>)
    requires Linked(s) && CanRun(s, events)
    ensures Linked(End(s, events))
    decreases |events|
  {
    if events != [] {
      StepLinked(s, events[0]);
      RunLinked(Then(s, events[0]), events[1..]);
    }
  }

  // ---- where a committed change's attribution is ----

  /** The events of one mutation of a commit. */
  predicate Records(e: Event, m: Mutation, revision: nat) {
    e.path == m.path && e.revision == revision && e.hash == HashOf(m.content) && e.who == m.who
  }

  predicate Changes(v: Version, m: Mutation, w: Version) {
    EtagAt(v.files, m.path) != EtagAt(w.files, m.path)
  }

  /** A Git commit names the line, and holds a version no earlier than the `n`-th, with what lay beside it. */
  ghost predicate NamedSince(s: Pipeline, line: Line, n: nat) {
    exists c: nat, k: nat, j: nat ::
      c < |s.book.git| && n <= k && line in s.book.git[c].lines && Holds(s.db, s.book.git[c].version, k, j)
  }

  /** The line was dropped while Git held the tree of a version no earlier than the `n`-th, and that. */
  ghost predicate ClearedSince(s: Pipeline, line: Line, n: nat) {
    exists c: nat, k: nat, j: nat ::
      && c < |s.book.cleared| && n <= k && line in s.book.cleared[c].lines && Holds(s.db, s.book.cleared[c].version, k, j)
      && s.book.cleared[c].after <= |s.book.git|
      && s.book.Tree(s.book.cleared[c].after) == s.book.cleared[c].version.files
  }

  /** The change of the `n`-th version is recorded by a line that is still to be sent, named or dropped. */
  ghost predicate Recorded(s: Pipeline, m: Mutation, n: nat)
    requires n < |s.db.versions|
  {
    exists line: Line :: line < |s.db.disk.log| && Records(s.db.disk.log[line], m, s.db.versions[n].revision)
                         && (s.book.Logged(line) || NamedSince(s, line, n) || ClearedSince(s, line, n))
  }

  lemma LaterRevision(db: State, v: Version, revision: nat, n: nat) returns (k: nat, j: nat)
    requires Lineage(db.versions, db.commits) && InHistory(db, v) && n < |db.versions|
    requires db.versions[n].revision == revision <= v.revision
    ensures n <= k && Holds(db, v, k, j)
  {
    k, j :| Holds(db, v, k, j);
    EngineTheorems.RevisionsAreConsecutive(db.versions, db.commits, k);
    EngineTheorems.RevisionsAreConsecutive(db.versions, db.commits, n);
  }

  /** A settled line was settled against a version that already held its change. */
  lemma SettledSince(s: Pipeline, line: Line, n: nat)
    requires GitOk(s) && Lineage(s.db.versions, s.db.commits) && n < |s.db.versions| && line < |s.db.disk.log|
    requires s.db.disk.log[line].revision == s.db.versions[n].revision && s.book.Settled(line)
    ensures NamedSince(s, line, n) || ClearedSince(s, line, n)
  {
    if s.book.Named(line) {
      var c: nat :| c < |s.book.git| && line in s.book.git[c].lines;
      var k, j := LaterRevision(s.db, s.book.git[c].version, s.db.versions[n].revision, n);
    } else {
      var c: nat :| c < |s.book.cleared| && line in s.book.cleared[c].lines;
      var k, j := LaterRevision(s.db, s.book.cleared[c].version, s.db.versions[n].revision, n);
    }
  }

  lemma ReportedIsRecorded(s: Pipeline, n: nat, i: nat)
    requires Linked(s) && Conserved(s.book) && n < |s.db.commits| && i < |s.db.commits[n].req.muts|
    requires Changes(s.db.versions[n], s.db.commits[n].req.muts[i], s.db.versions[n + 1])
    requires Reported(s.db.disk.log, s.db.versions[n], s.db.commits[n].req, s.db.versions[n + 1])
    ensures Recorded(s, s.db.commits[n].req.muts[i], n + 1)
  {
    var m := s.db.commits[n].req.muts[i];
    var log := s.db.disk.log;
    assert HasEvent(log, m, s.db.versions[n + 1].revision);
    var tx :| Event(m.path, s.db.versions[n + 1].revision, HashOf(m.content), m.who, tx) in log;
    var line: Line :| line < |log| && log[line] == Event(m.path, s.db.versions[n + 1].revision, HashOf(m.content), m.who, tx);
    assert Records(log[line], m, s.db.versions[n + 1].revision) && s.book.Kept(line);
    if !s.book.Logged(line) {
      SettledSince(s, line, n + 1);
    }
  }

  /**
   * From the engine to Git, over every run from a new installation without a losing step: each file a
   * committed call changed is owed by an intent on disk, or is recorded, under its author, by a line
   * still in the log, named by a Git commit that holds the change, or dropped while Git held it.
   */
  lemma EveryChangeReachesGit(s: Pipeline, events: seq<Occurrence>, n: nat, i: nat)
    requires Installed(s) && CanRun(s, events) && Lossless(s, events)
    requires n < |End(s, events).db.commits| && i < |End(s, events).db.commits[n].req.muts|
    ensures
      var t := End(s, events);
      && |t.db.versions| == |t.db.commits| + 1
      && var v, req, w := t.db.versions[n], t.db.commits[n].req, t.db.versions[n + 1];
         Changes(v, req.muts[i], w) ==> OwedOnDisk(t.db.disk, v, req, w) || Recorded(t, req.muts[i], n + 1)
  {
    StartLinked(s);
    RunLinked(s, events);
    NothingIsLostIff(s, events);
    var t := End(s, events);
    var v, req, w := t.db.versions[n], t.db.commits[n].req, t.db.versions[n + 1];
    assert Accounted(t.db.disk, v, req, w);
    if Changes(v, req.muts[i], w) && !OwedOnDisk(t.db.disk, v, req, w) {
      ReportedIsRecorded(t, n, i);
    }
  }

  // ---- no attribution ahead of its change ----

  /** The `k`-th version comes no earlier than one that holds what the event says. */
  ghost predicate ContainedBy(versions: seq<Version>, e: Event, k: nat) {
    exists j :: 0 <= j <= k < |versions| && ShownBy(versions[j], e)
  }

  /**
   * A commit attributes only changes it contains: when one is made it holds a committed version, and
   * each line it names records a change made in that version or before it. Beside the version lie the
   * first `j` temporaries of `.revision` ever left, all there were when `pending` was renamed among
   * them; the commit holds the version alone if and only if there were none.
   */
  lemma NeverAhead(s: Pipeline, events: seq<Occurrence>) returns (k: nat, j: nat)
    requires Installed(s) && CanRun(s, events) && End(s, events).book.phase.Committing?
    ensures
      var t := End(s, events);
      && k < |t.db.versions| && t.book.phase.had <= j <= |t.db.torn|
      && t.book.phase.version.revision == t.db.versions[k].revision
      && Continued(t).Tree(|t.book.git| + 1) == t.db.versions[k].files + LeftBy(t.db.torn[..j])
      && (Continued(t).Tree(|t.book.git| + 1) == t.db.versions[k].files <==> j == 0)
      && forall line :: line in t.book.phase.lines ==>
           line < |t.db.disk.log| && ContainedBy(t.db.versions, t.db.disk.log[line], k)
  {
    StartLinked(s);
    RunLinked(s, events);
    var t := End(s, events);
    k, j :| t.book.phase.had <= j && Shows(t.db, t.book.phase.version, k, j);
    forall line | line in t.book.phase.lines
      ensures line < |t.db.disk.log| && ContainedBy(t.db.versions, t.db.disk.log[line], k)
    {
      Contained(t.db, t.db.disk.log[line], k);
    }
  }

  lemma Contained(db: State, e: Event, k: nat)
    requires Real(db.versions, e) && Lineage(db.versions, db.commits) && k < |db.versions|
    requires e.revision <= db.versions[k].revision
    ensures ContainedBy(db.versions, e, k)
  {
    var j :| 0 <= j < |db.versions| && ShownBy(db.versions[j], e);
    EngineTheorems.RevisionsAreConsecutive(db.versions, db.commits, j);
    EngineTheorems.RevisionsAreConsecutive(db.versions, db.commits, k);
  }

  /** Whatever was dropped without a commit of its own records a change Git held when it was dropped. */
  lemma DroppedIsCommitted(s: Pipeline, events: seq<Occurrence>, c: nat)
    requires Installed(s) && CanRun(s, events) && c < |End(s, events).book.cleared|
    ensures
      var t := End(s, events);
      var drop := t.book.cleared[c];
      && InHistory(t.db, drop.version) && drop.after <= |t.book.git| && t.book.Tree(drop.after) == drop.version.files
      && forall line :: line in drop.lines ==>
           line < |t.db.disk.log| && t.db.disk.log[line].revision <= drop.version.revision
  {
    StartLinked(s);
    RunLinked(s, events);
  }

  // ---- when a commit's changes are named ----

  /** Events of the snapshot's revision or below that came after `pending` was renamed. */
  ghost predicate Late(log: seq<Event>, upTo: nat, revision: nat, line: Line) {
    upTo <= line < |log| && log[line].revision <= revision
  }

  lemma SettledByCommit(s: Pipeline, line: Line)
    requires Linked(s) && Conserved(s.book) && s.book.phase.Committing? && line < s.book.count
    ensures Continued(s).Settled(line) <==> line < s.book.phase.upTo
  {
    var b := s.book;
    SettledAfterCommit(b, b.phase.version, b.phase.lines, line);
    assert b.Kept(line);
  }

  /**
   * Whose change a commit holds, and names: every event of the snapshot's revision or below has been
   * named, or dropped, once the commit is made, if and only if none came between the renaming of
   * `pending` and the snapshot. Every change the snapshot holds has such an event.
   */
  lemma CommitNamesItsChangesIff(s: Pipeline, events: seq<Occurrence>)
    requires Installed(s) && CanRun(s, events) && Lossless(s, events) && End(s, events).book.phase.Committing?
    ensures
      var t := End(s, events);
      var log, phase := t.db.disk.log, t.book.phase;
      (forall line: Line :: line < |log| && log[line].revision <= phase.version.revision ==> Continued(t).Settled(line))
      <==> (forall line: Line :: !Late(log, phase.upTo, phase.version.revision, line))
  {
    StartLinked(s);
    RunLinked(s, events);
    NothingIsLostIff(s, events);
    var t := End(s, events);
    var log, phase := t.db.disk.log, t.book.phase;
    forall line: Line | line < |log| && log[line].revision <= phase.version.revision
      ensures Continued(t).Settled(line) <==> !Late(log, phase.upTo, phase.version.revision, line)
    {
      SettledByCommit(t, line);
    }
  }

  /**
   * One change at a time: some line that records it is named, or dropped, once the commit is made, if
   * and only if one was appended before `pending` was renamed.
   */
  lemma ChangeIsNamedIff(s: Pipeline, events: seq<Occurrence>, m: Mutation, revision: nat)
    requires Installed(s) && CanRun(s, events) && Lossless(s, events) && End(s, events).book.phase.Committing?
    ensures
      var t := End(s, events);
      var log := t.db.disk.log;
      (exists line: Line :: line < |log| && Records(log[line], m, revision) && Continued(t).Settled(line))
      <==> (exists line: Line :: line < |log| && Records(log[line], m, revision) && line < t.book.phase.upTo)
  {
    StartLinked(s);
    RunLinked(s, events);
    NothingIsLostIff(s, events);
    var t := End(s, events);
    forall line: Line | line < |t.db.disk.log| ensures Continued(t).Settled(line) <==> line < t.book.phase.upTo {
      SettledByCommit(t, line);
    }
  }

  /**
   * Every change of the version the commit's snapshot holds was handed to `onWrite` before the commit is
   * made. The temporaries beside it never were: no event ever says that such a file holds anything.
   */
  lemma SnapshotIsReported(s: Pipeline, events: seq<Occurrence>) returns (k: nat, j: nat)
    requires Installed(s) && CanRun(s, events) && End(s, events).book.phase.Committing?
    ensures
      var t := End(s, events);
      && t.book.phase.had <= j && Shows(t.db, t.book.phase.version, k, j)
      && forall e :: e in t.db.disk.log && DotFile(e.path) ==> e.hash == None
  {
    StartLinked(s);
    RunLinked(s, events);
    var t := End(s, events);
    k, j :| t.book.phase.had <= j && Shows(t.db, t.book.phase.version, k, j);
    NoDotIsReported(t.db);
  }

  lemma NoDotIsReported(db: State)
    requires DiskInv(db) && Lineage(db.versions, db.commits) && Told(db.versions, db.disk, 0)
    ensures forall e :: e in db.disk.log && DotFile(e.path) ==> e.hash == None
  {
    forall e | e in db.disk.log && DotFile(e.path) ensures e.hash == None {
      var i :| 0 <= i < |db.disk.log| && db.disk.log[i] == e;
      assert Real(db.versions, e);
      var n :| 0 <= n < |db.versions| && ShownBy(db.versions[n], e);
      NoVersionHasDots(db.versions, db.commits, n);
    }
  }

  lemma {:induction false} NoVersionHasDots(versions: seq<Version>, commits: seq<Commit>, n: nat)
    requires Lineage(versions, commits) && n < |versions| && NoDots(versions[|versions| - 1].files)
    ensures NoDots(versions[n].files)
    decreases |versions| - n
  {
    if n + 1 < |versions| {
      NoVersionHasDots(versions, commits, n + 1);
      assert Follows(versions[n], commits[n].req, versions[n + 1]);
      DotsStay(versions[n].files, commits[n].req.muts);
    }
  }

  /** No call writes or removes a file whose name starts with a dot. */
  lemma DotsStay(files: Files, muts: seq<Mutation>)
    requires DistinctPaths(muts) && LegalPaths(muts) && NoDots(Publish(files, muts))
    ensures NoDots(files)
  {
    forall p | p in files ensures !DotFile(p) {
      DistinctTargets(muts);
      OverlayAt(files, TargetsOf(muts), p);
      if DotFile(p) {
        assert Untouched(TargetsOf(muts), p);
      }
    }
  }

  // ---- the message ----

  /** The entry `onWrite` appends for an event. */
  function EntryOf(e: Event, timestamp: string): Attribution.Entry {
    Attribution.Entry(if e.who.actor == "" then "unknown" else e.who.actor, e.path.Render(), e.who.keys, e.revision, timestamp)
  }

  function EntriesOf(log: seq<Event>, timestamps: seq<string>, lines: seq<Line>): seq<Attribution.Entry>
    requires |log| == |timestamps| && forall i :: 0 <= i < |lines| ==> lines[i] < |log|
  {
    seq(|lines|, i requires 0 <= i < |lines| => EntryOf(log[lines[i]], timestamps[lines[i]]))
  }

  /** The commit message has a trailer of its own for the author of every line the commit names. */
  lemma MessageNamesTheAuthor(log: seq<Event>, timestamps: seq<string>, lines: seq<Line>, line: Line)
    requires |log| == |timestamps| && line in lines && forall i :: 0 <= i < |lines| ==> lines[i] < |log|
    ensures "Actor: " + EntryOf(log[line], timestamps[line]).actor
            in Attribution.Body(EntriesOf(log, timestamps, lines))
  {
    var entries := EntriesOf(log, timestamps, lines);
    var actor := EntryOf(log[line], timestamps[line]).actor;
    var i :| 0 <= i < |lines| && lines[i] == line;
    assert entries[i].actor == actor;
    Attribution.ActorsAre(entries, actor);
    var actors := Text.SortedSet(Attribution.Actors(entries));
    var k :| 0 <= k < |actors| && actors[k] == actor;
    assert Attribution.Trailers(actors)[k] == "Actor: " + actor;
  }
}
