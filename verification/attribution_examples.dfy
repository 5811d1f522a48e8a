/** Concrete runs of the engine and the synchronization: attributions gone missing, a file nobody wrote. */
module AttributionExamples {
  import opened Wrappers
  import opened Documents
  import opened Storage
  import opened Recovery
  import opened Requests
  import opened LockTable
  import opened Engine
  import opened EngineHistory
  import opened EngineStrays
  import opened EngineEvents
  import opened EngineSolo
  import EngineTheorems
  import opened AttributionRuns
  import opened AttributionHistory

  // ---- runs of the whole pipeline, put together ----

  lemma {:induction false} Onward(s: Pipeline, a: seq<Occurrence>, b: seq<Occurrence>)
    requires CanRun(s, a) && CanRun(End(s, a), b)
    ensures CanRun(s, a + b) && End(s, a + b) == End(End(s, a), b)
    decreases |a|
  {
    if a == [] {
      assert a + b == b;
    } else {
      assert (a + b)[0] == a[0] && (a + b)[1..] == a[1..] + b;
      Onward(Then(s, a[0]), a[1..], b);
    }
  }

  lemma FirstThen(s: Pipeline, e: Occurrence, rest: seq<Occurrence>)
    requires CanOccur(s, e) && CanRun(Then(s, e), rest)
    ensures CanRun(s, [e] + rest) && End(s, [e] + rest) == End(Then(s, e), rest)
  {
    assert ([e] + rest)[0] == e && ([e] + rest)[1..] == rest;
  }

  lemma TwoSteps(s: Pipeline, t: Pipeline, a: Occurrence, b: Occurrence)
    requires CanOccur(s, a) && Then(s, a) == t && CanOccur(t, b)
    ensures CanRun(s, [a, b]) && End(s, [a, b]) == Then(t, b)
  {
    FirstThen(t, b, []);
    FirstThen(s, a, [b] + []);
    assert [a, b] == [a] + ([b] + []);
  }

  function Lift(actions: seq<Action>): seq<Occurrence> {
    seq(|actions|, i requires 0 <= i < |actions| => Db(actions[i]))
  }

  predicate Running(b: Book) {
    !b.phase.Killed? && !b.phase.Rewriting?
  }

  lemma AppendTwice(b: Book, first: nat, second: nat)
    requires b.count <= first <= second
    ensures Append(Append(b, first), second) == Append(b, second)
  {
    assert Lines(b.count, first) + Lines(first, second) == Lines(b.count, second);
    assert b.pending + Lines(b.count, first) + Lines(first, second) == b.pending + Lines(b.count, second);
  }

  lemma AppendNothing(b: Book)
    ensures Append(b, b.count) == b
  {
    assert b.pending + Lines(b.count, b.count) == b.pending;
  }

  /** What the engine does while the synchronization stands still. */
  lemma {:induction false} LiftRuns(s: Pipeline, actions: seq<Action>)
    requires EngineTheorems.Legal(s.db, actions) && Crash !in actions
    requires Running(s.book) && s.book.count == |s.db.disk.log|
    ensures CanRun(s, Lift(actions)) && s.book.count <= |EngineTheorems.After(s.db, actions).disk.log|
    ensures
      var t := EngineTheorems.After(s.db, actions);
      End(s, Lift(actions)) == Pipeline(t, Append(s.book, |t.disk.log|))
    decreases |actions|
  {
    if actions == [] {
      AppendNothing(s.book);
    } else {
      var a, rest := actions[0], actions[1..];
      assert actions == [a] + rest;
      LogGrows(s.db, a);
      var next := Then(s, Db(a));
      LiftRuns(next, rest);
      AppendTwice(s.book, |next.db.disk.log|, |EngineTheorems.After(next.db, rest).disk.log|);
      assert Lift(actions)[0] == Db(a) && Lift(actions)[1..] == Lift(rest);
    }
  }

  // ---- one write, one snapshot ----

  /** A healthy process with no call under way. */
  ghost predicate Ready(s: Pipeline) {
    AtRest(s.db) && Running(s.book)
  }

  ghost predicate WroteIn(s: Pipeline, t: Pipeline, pid: Pid, m: Mutation)
    requires s.db.versions != [] && m.content.Some?
  {
    && Ready(t) && WrittenAlone(s.db, t.db, pid, m)
    && s.book.count < t.book.count && t.book == Append(s.book, t.book.count)
  }

  /** A call that has the engine to itself: the file is there, and its lines are appended. */
  lemma WriteIn(s: Pipeline, pid: Pid, m: Mutation) returns (events: seq<Occurrence>)
    requires Linked(s) && Ready(s) && pid !in s.db.procs && Writable(s.db.Last(), m)
    ensures CanRun(s, events) && WroteIn(s, End(s, events), pid, m)
  {
    var actions := OneWrite(s.db, pid, m);
    LiftRuns(s, actions);
    events := Lift(actions);
    RunLinked(s, events);
    RunGrows(s, events);
    LogGrew(s.db, End(s, events).db, pid, m);
  }

  lemma LogGrew(s: State, t: State, pid: Pid, m: Mutation)
    requires Inv(s) && AtRest(s) && StrayInv(s) && EventsInv(s, 0) && EventsInv(t, 0) && s.disk.log <= t.disk.log
    requires Inv(t) && StrayInv(t) && Writable(s.Last(), m) && WrittenAlone(s, t, pid, m)
    ensures |s.disk.log| < |t.disk.log|
  {
    RestingDisk(s);
    RestingDisk(t);
    NewEvent(s, t, pid, m);
  }

  lemma NewEvent(s: State, t: State, pid: Pid, m: Mutation)
    requires s.versions != [] && |s.versions| == |s.commits| + 1 && EventsInv(s, 0) && AllAccounted(t) && Quiet(t.disk)
    requires s.disk.revision == s.Last().revision && s.disk.log <= t.disk.log
    requires Writable(s.Last(), m) && WrittenAlone(s, t, pid, m)
    ensures |s.disk.log| < |t.disk.log|
  {
    NoneAhead(s);
    ItIsReported(t, pid, m);
    assert t.disk.log[..|s.disk.log|] == s.disk.log;
  }

  lemma NoneAhead(s: State)
    requires EventsInv(s, 0)
    ensures forall e :: e in s.disk.log ==> e.revision <= s.disk.revision
  {
  }

  lemma ItIsReported(t: State, pid: Pid, m: Mutation)
    requires AllAccounted(t) && Quiet(t.disk) && t.commits != [] && m.content.Some?
    requires
      var n := |t.commits| - 1;
      && t.commits[n] == Commit(pid, Request([m], [], [])) && m.path !in t.versions[n].files
      && t.Last() == Version(t.versions[n].revision + 1, t.versions[n].files[m.path := m.content.value])
    ensures exists e :: e in t.disk.log && e.revision == t.Last().revision
  {
    var n := |t.commits| - 1;
    QuietIsReported(t);
    assert Reported(t.disk.log, t.versions[n], t.commits[n].req, t.versions[n + 1]);
    assert t.commits[n].req.muts[0] == m;
    assert HasEvent(t.disk.log, m, t.versions[n + 1].revision);
  }

  lemma {:induction false} RunGrows(s: Pipeline, events: seq<Occurrence>)
    requires Linked(s) && CanRun(s, events)
    ensures Grows(s.db, End(s, events).db)
    decreases |events|
  {
    if events != [] {
      StepGrows(s, events[0]);
      StepLinked(s, events[0]);
      RunGrows(Then(s, events[0]), events[1..]);
    }
  }

  lemma StepGrows(s: Pipeline, e: Occurrence)
    requires Linked(s) && CanOccur(s, e)
    ensures Grows(s.db, Then(s, e).db)
  {
    match e
    case Db(a) => ActionLinked(s.db, a);
    case Ask(pid) => ActionLinked(s.db, Arrive(pid, Snapshot, []));
    case Kill => ActionLinked(s.db, Crash);
    case _ =>
  }

  /** What a snapshot of a resting engine shows. */
  function Sighted(s: State): Version
    requires s.versions != []
  {
    Version(s.Last().revision, s.Last().files + LeftBy(s.torn))
  }

  ghost predicate LookedIn(s: Pipeline, t: Pipeline, pid: Pid)
    requires s.db.versions != [] && s.book.phase.Rotated?
  {
    && Ready(t) && LookedAlone(s.db, t.db, pid)
    && t.book == s.book.(phase := Mirrored(s.book.phase.upTo, s.book.phase.had, Sighted(s.db)))
  }

  /** The synchronization takes its snapshot. */
  lemma LookIn(s: Pipeline, pid: Pid) returns (events: seq<Occurrence>)
    requires Linked(s) && Ready(s) && s.book.phase.Rotated? && pid !in s.db.procs
    ensures CanRun(s, events) && LookedIn(s, End(s, events), pid)
  {
    var asked := Then(s, Ask(pid));
    var actions := OneLook(s.db, pid);
    LiftRuns(asked, actions);
    AppendNothing(asked.book);
    var seen := End(asked, Lift(actions));
    FirstThen(seen, Continue, []);
    Onward(asked, Lift(actions), [Continue] + []);
    FirstThen(s, Ask(pid), Lift(actions) + ([Continue] + []));
    events := [Ask(pid)] + (Lift(actions) + ([Continue] + []));
  }

  // ---- the synchronization's own steps ----

  lemma RotateRuns(s: Pipeline)
    requires s.book.phase.Idle? && s.db.boot.Up?
    ensures CanRun(s, [Begin, Continue])
    ensures End(s, [Begin, Continue])
            == s.(book := s.book.(pending := [], sending := s.book.pending, spent := false,
                                  phase := Rotated(s.book.count, |s.db.torn|)))
  {
    TwoSteps(s, Then(s, Begin), Begin, Continue);
  }

  /** The book once a snapshot that Git did not hold has been committed. */
  function Committed(b: Book): Book
    requires b.phase.Mirrored?
  {
    b.(git := b.git + [GitCommit(b.phase.version, b.sending)], sending := [], phase := Idle, spent := true)
  }

  lemma CommitRuns(s: Pipeline)
    requires s.book.phase.Mirrored? && s.book.phase.version.files != s.book.Tree(|s.book.git|)
    ensures CanRun(s, [Continue, Continue] + [Continue, Continue])
    ensures End(s, [Continue, Continue] + [Continue, Continue]) == s.(book := Committed(s.book))
  {
    var t := Then(Then(s, Continue), Continue);
    TwoSteps(s, Then(s, Continue), Continue, Continue);
    TwoSteps(t, Then(t, Continue), Continue, Continue);
    Onward(s, [Continue, Continue], [Continue, Continue]);
  }

  /** The book once a snapshot that Git held already has been found to need no commit. */
  function FoundClean(b: Book): Book
    requires b.phase.Mirrored?
  {
    b.(cleared := b.cleared + [Clearing(b.phase.version, b.sending, |b.git|)], sending := [], phase := Idle, spent := true)
  }

  lemma CleanRuns(s: Pipeline)
    requires s.book.phase.Mirrored? && s.book.phase.version.files == s.book.Tree(|s.book.git|)
    ensures CanRun(s, [Continue, Continue]) && End(s, [Continue, Continue]) == s.(book := FoundClean(s.book))
  {
    TwoSteps(s, Then(s, Continue), Continue, Continue);
  }

  // ---- a new installation ----

  const EMPTY := State(Disk(map[], 0, map[], [], map[]), Down, false, map[], Table(map[], map[]), [],
                       [Version(0, map[])], [], [])
  const NEW := Pipeline(EMPTY, Book([], [], map[], [], Killed, 0, [], false, {}))
  const UP := Pipeline(EMPTY.(boot := Up), NEW.book.(phase := Idle))

  ghost predicate Reached(s: Pipeline) {
    exists events :: CanRun(NEW, events) && End(NEW, events) == s
  }

  lemma Further(s: Pipeline, events: seq<Occurrence>)
    requires Reached(s) && CanRun(s, events)
    ensures Reached(End(s, events))
  {
    var before :| CanRun(NEW, before) && End(NEW, before) == s;
    Onward(NEW, before, events);
  }

  lemma UpIsReached()
    ensures Reached(UP) && Ready(UP)
  {
    var a, b := Db(Restart([])), Db(Recover);
    var t1 := Then(NEW, Boot);
    AppendNothing(t1.book);
    assert RecoverScript(EMPTY.disk, []) == [];
    var t2 := Then(t1, a);
    assert t2.db.boot == Recovering([]) && t2.book == t1.book;
    TwoSteps(t1, t2, a, b);
    FirstThen(NEW, Boot, [a, b]);
  }

  lemma ReachedIsLinked(s: Pipeline)
    requires Reached(s)
    ensures Installed(NEW) && Linked(s)
  {
    var before :| CanRun(NEW, before) && End(NEW, before) == s;
    StartLinked(NEW);
    RunLinked(NEW, before);
  }

  /** What every reached state has: a history, and Git's part of it. */
  lemma ReachedIsSound(s: Pipeline)
    requires Reached(s)
    ensures s.db.versions != [] && |s.db.versions| == |s.db.commits| + 1
  {
    ReachedIsLinked(s);
  }

  lemma Rotates(s: Pipeline) returns (t: Pipeline)
    requires Reached(s) && Ready(s) && s.book.phase.Idle?
    ensures Reached(t) && Ready(t) && t.db == s.db
    ensures t.book == s.book.(pending := [], sending := s.book.pending, spent := false,
                              phase := Rotated(s.book.count, |s.db.torn|))
  {
    RotateRuns(s);
    Further(s, [Begin, Continue]);
    t := End(s, [Begin, Continue]);
  }

  lemma WritesOne(s: Pipeline, pid: Pid, m: Mutation) returns (t: Pipeline)
    requires Reached(s) && Ready(s) && pid !in s.db.procs && s.db.versions != [] && Writable(s.db.Last(), m)
    ensures Reached(t) && WroteIn(s, t, pid, m)
  {
    ReachedIsLinked(s);
    var events := WriteIn(s, pid, m);
    Further(s, events);
    t := End(s, events);
  }

  lemma Looks(s: Pipeline, pid: Pid) returns (t: Pipeline)
    requires Reached(s) && Ready(s) && s.book.phase.Rotated? && pid !in s.db.procs && s.db.versions != []
    ensures Reached(t) && LookedIn(s, t, pid)
  {
    ReachedIsLinked(s);
    var events := LookIn(s, pid);
    Further(s, events);
    t := End(s, events);
  }

  lemma Commits(s: Pipeline) returns (t: Pipeline)
    requires Reached(s) && Ready(s) && s.book.phase.Mirrored? && s.book.phase.version.files != s.book.Tree(|s.book.git|)
    ensures Reached(t) && Ready(t) && t == s.(book := Committed(s.book))
  {
    CommitRuns(s);
    var events := [Continue, Continue] + [Continue, Continue];
    Further(s, events);
    t := End(s, events);
  }

  const ACTOR := Storage.Attribution("alice", ["k"])
  const FIRST := Mutation(Path(Root, "a", true), Some(Text(Null, 0)), Anything, ACTOR, true)
  const SECOND := Mutation(Path(Root, "b", true), Some(Text(Null, 0)), Anything, ACTOR, true)

  lemma BothAreNew()
    ensures Writable(UP.db.Last(), FIRST) && FIRST.path != SECOND.path && !DotFile(SECOND.path)
  {
    assert FIRST.path.name[0] == 'a' && SECOND.path.name[0] == 'b';
  }

  /** One file is written, by a call whose lines are the first. */
  lemma FirstWritten(s: Pipeline) returns (t: Pipeline)
    requires Reached(s) && Ready(s) && s.db == UP.db && s.book.count == 0 && s.book.pending == []
    ensures Reached(t) && WroteIn(s, t, 0, FIRST)
    ensures t.db.procs.Keys == {0} && FIRST.path in t.db.Last().files && |t.db.commits| == 1 && t.db.torn == []
    ensures t.book == s.book.(pending := Lines(0, t.book.count), count := t.book.count) && 0 < t.book.count
    ensures Writable(t.db.Last(), SECOND)
  {
    BothAreNew();
    t := WritesOne(s, 0, FIRST);
    assert [] + Lines(0, t.book.count) == Lines(0, t.book.count);
  }

  // ---- a retry without a restart ----

  /** A synchronization that follows a failed one without a restart drops what the failed one was sending. */
  lemma RetryWithoutRecoveryLoses() returns (events: seq<Occurrence>)
    ensures Installed(NEW) && CanRun(NEW, events) && !Conserved(End(NEW, events).book)
    ensures End(NEW, events).book.phase.Rotating?
  {
    UpIsReached();
    var wrote := FirstWritten(UP);
    var rotated := Rotates(wrote);
    TwoSteps(rotated, Then(rotated, Fails), Fails, Begin);
    Further(rotated, [Fails, Begin]);
    var lost := End(rotated, [Fails, Begin]);
    assert 0 < lost.book.count && !lost.book.Kept(0);
    ReachedIsLinked(lost);
    events :| CanRun(NEW, events) && End(NEW, events) == lost;
  }

  // ---- a kill while recover rewrites ----

  lemma SecondWritten(s: Pipeline) returns (t: Pipeline)
    requires Reached(s) && Ready(s) && s.db.procs.Keys == {0} && s.book.pending == []
    requires s.db.versions != [] && Writable(s.db.Last(), SECOND)
    ensures Reached(t) && Running(t.book) && s.book.count < t.book.count
    ensures t.book == s.book.(pending := Lines(s.book.count, t.book.count), count := t.book.count)
  {
    t := WritesOne(s, 1, SECOND);
    assert [] + Lines(s.book.count, t.book.count) == Lines(s.book.count, t.book.count);
  }

  /** One file is written, and another while the first one's lines are being sent. */
  lemma BothWritten() returns (s: Pipeline, first: nat)
    ensures Reached(s) && Running(s.book) && s.book.git == [] && s.book.cleared == []
    ensures 0 < first < s.book.count && s.book.sending == Lines(0, first) && s.book.pending == Lines(first, s.book.count)
  {
    UpIsReached();
    var wrote := FirstWritten(UP);
    first := wrote.book.count;
    var rotated := Rotates(wrote);
    s := SecondWritten(rotated);
  }

  /** Killed, and again when the boot has just truncated `pending`. */
  lemma KilledTwice() returns (s: Pipeline, line: Line)
    ensures Reached(s) && line < s.book.count && !s.book.Kept(line)
  {
    UpIsReached();
    var both, first := BothWritten();
    TwoSteps(both, Then(both, Kill), Kill, Boot);
    Further(both, [Kill, Boot]);
    var booting := End(both, [Kill, Boot]);
    FirstThen(booting, Kill, []);
    Further(booting, [Kill] + []);
    s, line := End(booting, [Kill] + []), first;
  }

  /** A kill while `recover` rewrites `pending` loses a line, and no later recovery brings it back. */
  lemma KillInRecoverLoses() returns (events: seq<Occurrence>)
    ensures Installed(NEW) && CanRun(NEW, events) && !Conserved(End(NEW, events).book)
    ensures forall more :: CanRun(End(NEW, events), more) ==> !Conserved(End(End(NEW, events), more).book)
  {
    var lost, line := KilledTwice();
    ReachedIsLinked(lost);
    events :| CanRun(NEW, events) && End(NEW, events) == lost;
    forall more | CanRun(lost, more) ensures !Conserved(End(lost, more).book) {
      RunStaysLost(lost, more, line);
    }
  }

  // ---- an author no commit names ----

  /** A synchronization renames an empty log; then the write happens, and the snapshot shows it. */
  lemma LateIsCommitted() returns (t: Pipeline)
    ensures Reached(t) && Ready(t) && t.book.phase.Idle? && t.db.procs.Keys == {0, 1} && t.db.torn == []
    ensures t.db.versions != []
    ensures 0 < t.book.count && t.book.pending == Lines(0, t.book.count) && t.book.sending == [] && t.book.cleared == []
    ensures |t.db.commits| == 1 && t.book.git == [GitCommit(t.db.Last(), [])]
    ensures t.db.Last().files != map[] == t.book.base
  {
    UpIsReached();
    var rotated := Rotates(UP);
    var wrote := FirstWritten(rotated);
    var shown := Looks(wrote, 1);
    SightIsLast(wrote.db);
    t := Commits(shown);
    assert [] + [GitCommit(wrote.db.Last(), [])] == [GitCommit(wrote.db.Last(), [])];
  }

  lemma SightIsLast(s: State)
    requires s.versions != [] && s.torn == []
    ensures Sighted(s) == s.Last()
    ensures FIRST.path in s.Last().files ==> s.Last().files != map[]
  {
    assert s.Last().files + LeftBy([]) == s.Last().files;
  }

  /** The next synchronization sends the lines, and finds nothing to commit. */
  lemma LateIsDropped() returns (t: Pipeline)
    ensures Reached(t) && t.book.phase.Idle? && t.db.versions != [] && t.book.pending == [] && t.book.sending == []
    ensures |t.db.commits| == 1 && t.book.git == [GitCommit(t.db.Last(), [])] && t.db.Last().files != t.book.base
    ensures 0 < t.book.count && t.book.cleared == [Clearing(t.db.Last(), Lines(0, t.book.count), 1)]
  {
    UpIsReached();
    var late := LateIsCommitted();
    var rotated := Rotates(late);
    var shown := Looks(rotated, 2);
    SightIsLast(rotated.db);
    CleanRuns(shown);
    Further(shown, [Continue, Continue]);
    t := End(shown, [Continue, Continue]);
  }

  /**
   * A write between the renaming of `pending` and the snapshot is in the next commit but not in its
   * message, and the synchronization after that drops its lines as needing no commit: nothing is lost
   * as the log counts it, Git holds the change, and no commit ever names its author.
   */
  lemma LateAuthorIsNeverNamed() returns (events: seq<Occurrence>)
    ensures Installed(NEW) && CanRun(NEW, events) && Lossless(NEW, events)
    ensures
      var t := End(NEW, events);
      && t.book.phase.Idle? && 0 < t.book.count && t.book.pending == [] && t.book.sending == []
      && |t.db.commits| == 1 && t.db.versions != [] && t.book.Tree(|t.book.git|) == t.db.Last().files != t.book.base
      && forall line: Line :: line < t.book.count ==> t.book.Cleared(line) && !t.book.Named(line)
    ensures forall more, line: Line ::
              CanRun(End(NEW, events), more) && line < End(NEW, events).book.count ==>
                !End(End(NEW, events), more).book.Named(line)
  {
    var t := LateIsDropped();
    events :| CanRun(NEW, events) && End(NEW, events) == t;
    DroppedUnnamed(t.book, t.db.Last());
    StartLinked(NEW);
    NothingIsLostIff(NEW, events);
    forall more, line: Line | CanRun(t, more) && line < t.book.count ensures !End(t, more).book.Named(line) {
      RunStaysGone(t, more, line);
    }
  }

  lemma DroppedUnnamed(b: Book, v: Version)
    requires b.cleared == [Clearing(v, Lines(0, b.count), 1)] && |b.git| == 1 && b.git[0].lines == []
    requires b.phase.Idle? && b.pending == [] && b.sending == []
    ensures forall line: Line :: line < b.count ==> b.Cleared(line) && !b.Named(line) && !b.Logged(line)
    ensures Conserved(b)
  {
    forall line: Line | line < b.count ensures b.Cleared(line) && !b.Named(line) && !b.Logged(line) && b.Kept(line) {
      assert Lines(0, b.count)[line] == line;
      assert line in b.cleared[0].lines;
    }
  }

  // ---- a file nobody wrote ----

  lemma KillBoots(s: Pipeline) returns (t: Pipeline)
    requires Reached(s) && s.book.sending == []
    ensures Reached(t) && t.book == s.book.(phase := Idle) && t.db == Do(s.db, Crash)
  {
    TwoSteps(s, Then(s, Kill), Kill, Boot);
    Further(s, [Kill, Boot]);
    t := End(s, [Kill, Boot]);
  }

  /** Killed there, and started again. */
  lemma TornBoots(s: Pipeline, pid: Pid, m: Mutation) returns (t: Pipeline)
    requires Reached(s) && Ready(s) && pid !in s.db.procs && s.db.versions != [] && Writable(s.db.Last(), m)
    requires s.book.sending == []
    ensures Reached(t) && t.book.phase.Idle? && t.db.boot.Down? && !t.db.broken && t.db.procs == map[]
    ensures t.db.torn != [] && t.db.versions != [] && t.book.git == s.book.git && t.book.base == s.book.base
  {
    var torn := TornIsReached(s, pid, m);
    ReachedIsSound(torn);
    t := KillBoots(torn);
  }

  lemma TornIsReached(s: Pipeline, pid: Pid, m: Mutation) returns (t: Pipeline)
    requires Reached(s) && Ready(s) && pid !in s.db.procs && s.db.versions != [] && Writable(s.db.Last(), m)
    ensures Reached(t) && Opened(t.db) != [] && t.book == s.book.(pending := t.book.pending, count := t.book.count)
  {
    ReachedIsLinked(s);
    var actions := OneTornWrite(s.db, pid, m);
    LiftRuns(s, actions);
    Further(s, Lift(actions));
    t := End(s, Lift(actions));
  }

  /** One recovery completes. */
  lemma RecoveryCompletes(s: Pipeline) returns (t: Pipeline)
    requires Reached(s) && s.book.phase.Idle? && s.db.boot.Down? && !s.db.broken && s.db.procs == map[]
    ensures Reached(t) && Ready(t) && Recovered(s.db, t.db)
    ensures t.book == s.book.(pending := t.book.pending, count := t.book.count)
  {
    ReachedIsLinked(s);
    var actions := OneRecovery(s.db);
    LiftRuns(s, actions);
    Further(s, Lift(actions));
    t := End(s, Lift(actions));
  }

  lemma TornIsSeen(s: State, p: Path)
    requires s.versions != [] && s.torn != [] && p == s.torn[0].Path()
    ensures p in Sighted(s).files && DotFile(p)
  {
    LeftByAre(s.torn);
    assert p.name[0] == ".revision."[0];
  }

  /** The next synchronization commits the temporary. */
  lemma TornIsCommitted() returns (t: Pipeline, temp: Temp)
    ensures Reached(t) && t.book.phase.Idle? && |t.book.git| == 1
    ensures temp in t.db.torn && temp.Path() in t.book.git[0].version.files && DotFile(temp.Path())
  {
    UpIsReached();
    BothAreNew();
    var booted := TornBoots(UP, 0, FIRST);
    var recovered := RecoveryCompletes(booted);
    var rotated := Rotates(recovered);
    var shown := Looks(rotated, 1);
    temp := rotated.db.torn[0];
    TornIsSeen(rotated.db, temp.Path());
    t := Commits(shown);
  }

  /**
   * A kill between creating the temporary of `.revision` and renaming it, one recovery that completes,
   * one synchronization: Git then holds a file that is in no committed version, that no event of the
   * log reports, and that stays in the tree for good.
   */
  lemma TornKillReachesGit() returns (events: seq<Occurrence>, p: Path)
    ensures Installed(NEW) && CanRun(NEW, events) && DotFile(p)
    ensures
      var t := End(NEW, events);
      && t.book.phase.Idle? && |t.book.git| == 1 && p in t.book.git[0].version.files
      && (forall n :: 0 <= n < |t.db.versions| ==> p !in t.db.versions[n].files)
      && (forall e :: e in t.db.disk.log && e.path == p ==> e.hash == None)
    ensures forall more :: CanRun(End(NEW, events), more) ==> p in End(End(NEW, events), more).db.disk.strays
  {
    var t, temp := TornIsCommitted();
    ReachedIsLinked(t);
    events, p :| CanRun(NEW, events) && End(NEW, events) == t && p == temp.Path();
    NoDotIsReported(t.db);
    forall n | 0 <= n < |t.db.versions| ensures p !in t.db.versions[n].files {
      NoVersionHasDots(t.db.versions, t.db.commits, n);
    }
    forall more | CanRun(t, more) ensures p in End(t, more).db.disk.strays {
      RunLinked(t, more);
      RunGrows(t, more);
      EngineTheorems.LeftIsOnDisk(End(t, more).db, temp);
    }
  }
}
