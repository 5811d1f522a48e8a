/** The engine, its attribution log and the synchronization to Git, interleaved, failing and killed anywhere. */
module AttributionRuns {
  import opened Wrappers
  import opened Documents
  import opened Storage
  import opened LockTable
  import opened Engine

  /** A line of the log files: the number of the event it records, counting those handed to `onWrite`. */
  type Line = nat
  /** A commit made by a synchronization: the snapshot it holds and the lines its message names. */
  datatype GitCommit = GitCommit(version: Version, lines: seq<Line>)
  /** A synchronization that found its snapshot committed already, when there were `after` commits. */
  datatype Clearing = Clearing(version: Version, lines: seq<Line>, after: nat)

  /**
   * Where a synchronization or a boot stands, one file, engine or Git step at a time. `upTo`, which
   * nothing reads, is how many lines had been appended when `pending` was renamed; `had`, which nothing
   * reads either, how many temporaries of `.revision` had been left behind.
   */
  datatype Phase =
    | Idle
    | Rotating                                                // `sending` removed, `pending` not yet renamed
    | Rotated(upTo: nat, had: nat)                            // about to ask the engine for a snapshot
    | Asking(upTo: nat, had: nat, pid: Pid)                   // awaiting it
    | Mirrored(upTo: nat, had: nat, version: Version)         // about to ask Git for the status
    | Draining(upTo: nat, had: nat, version: Version)
    | Committing(upTo: nat, had: nat, version: Version, lines: seq<Line>)
    | Discarding
    | Killed
    | Rewriting(todo: seq<Line>)                              // recover: `pending` truncated, these still to be written
  {
    predicate Syncing() {
      !Idle? && !Killed? && !Rewriting?
    }

    predicate Fresh() {
      Rotated? || Asking? || Mirrored? || Draining? || Committing?
    }
  }

  /**
   * The two log files and Git; a missing file reads as an empty one. `base` is what Git held at first.
   * For the statements only: `count` lines were ever appended; `cleared` are the synchronizations that
   * found nothing to commit; `spent` says that the one that filled `sending` got as far as its commit
   * or as finding nothing to commit; `resent` are the lines a recovery put back although it had.
   */
  datatype Book = Book(pending: seq<Line>, sending: seq<Line>, base: Files, git: seq<GitCommit>, phase: Phase,
                       count: nat, cleared: seq<Clearing>, spent: bool, resent: set<Line>)
  {
    /** What Git holds once `n` commits have been made. */
    function Tree(n: nat): Files
      requires n <= |git|
    {
      if n == 0 then base else git[n - 1].version.files
    }

    predicate Named(line: Line) {
      exists c :: 0 <= c < |git| && line in git[c].lines
    }

    predicate Cleared(line: Line) {
      exists c :: 0 <= c < |cleared| && line in cleared[c].lines
    }

    /** Named by a commit, or dropped because its change was committed already. */
    predicate Settled(line: Line) {
      Named(line) || Cleared(line)
    }

    predicate Logged(line: Line) {
      line in pending || line in sending || (phase.Rewriting? && line in phase.todo)
    }

    predicate Kept(line: Line) {
      Logged(line) || Settled(line)
    }
  }

  function Lines(from: nat, to: nat): seq<Line>
    requires from <= to
  {
    seq(to - from, i requires 0 <= i < to - from => from + i)
  }

  // ---- steps ----

  function Append(b: Book, count: nat): Book
    requires b.count <= count
  {
    b.(pending := b.pending + Lines(b.count, count), count := count)
  }

  function Begun(b: Book): Book {
    b.(sending := [], phase := Rotating)
  }

  function Rotate(b: Book, had: nat): Book {
    b.(pending := [], sending := b.pending, spent := false, phase := Rotated(b.count, had))
  }

  function Compare(b: Book, upTo: nat, had: nat, v: Version): Book {
    if v.files == b.Tree(|b.git|) then
      b.(phase := Discarding, spent := true, cleared := b.cleared + [Clearing(v, b.sending, |b.git|)])
    else b.(phase := Draining(upTo, had, v))
  }

  function CommitTo(b: Book, v: Version, lines: seq<Line>): Book {
    b.(git := b.git + [GitCommit(v, lines)], phase := Discarding, spent := true)
  }

  function BootBook(b: Book): Book {
    if b.sending == [] then b.(phase := Idle)
    else
      b.(pending := [], phase := Rewriting(b.sending + b.pending),
         resent := if b.spent then b.resent + (set line | line in b.sending) else b.resent)
  }

  function Rewrite(b: Book, todo: seq<Line>): Book {
    if todo == [] then b.(sending := [], phase := Idle)
    else b.(pending := b.pending + [todo[0]], phase := Rewriting(todo[1..]))
  }

  /** The engine and the book of its events. */
  datatype Pipeline = Pipeline(db: State, book: Book)

  datatype Occurrence =
    | Db(action: Action)
    | Begin                        // syncNow
    | Ask(pid: Pid)                // the synchronization asks for a snapshot under this name
    | Continue                     // the next step of the synchronization or of the boot
    | Fails                        // the synchronization throws
    | Kill
    | Boot                         // recover() before the database opens

  predicate CanContinue(s: Pipeline) {
    match s.book.phase
    case Idle | Killed | Rotated(_, _) => false
    case Asking(_, _, pid) => pid in s.db.procs && s.db.procs[pid].outcome.Saw?
    case _ => true
  }

  ghost predicate CanOccur(s: Pipeline, e: Occurrence) {
    var phase := s.book.phase;
    match e
    case Db(a) => Enabled(s.db, a) && !a.Crash? && !phase.Killed? && !phase.Rewriting?
                  && s.book.count <= |Do(s.db, a).disk.log|
    case Begin => phase.Idle? && s.db.boot.Up?
    case Ask(pid) => phase.Rotated? && Enabled(s.db, Arrive(pid, Snapshot, []))
    case Continue => CanContinue(s)
    case Fails => phase.Syncing()
    case Kill => true
    case Boot => phase.Killed?
  }

  function Continued(s: Pipeline): Book
    requires CanContinue(s)
  {
    var b := s.book;
    match b.phase
    case Rotating => Rotate(b, |s.db.torn|)
    case Asking(upTo, had, pid) => b.(phase := Mirrored(upTo, had, s.db.procs[pid].outcome.version))
    case Mirrored(upTo, had, v) => Compare(b, upTo, had, v)
    case Draining(upTo, had, v) => b.(phase := Committing(upTo, had, v, b.sending))
    case Committing(_, _, v, lines) => CommitTo(b, v, lines)
    case Discarding => b.(sending := [], phase := Idle)
    case Rewriting(todo) => Rewrite(b, todo)
  }

  ghost function Then(s: Pipeline, e: Occurrence): Pipeline
    requires CanOccur(s, e)
  {
    match e
    case Db(a) => Pipeline(Do(s.db, a), Append(s.book, |Do(s.db, a).disk.log|))
    case Begin => s.(book := Begun(s.book))
    case Ask(pid) => Pipeline(Do(s.db, Arrive(pid, Snapshot, [])),
                          s.book.(phase := Asking(s.book.phase.upTo, s.book.phase.had, pid)))
    case Continue => s.(book := Continued(s))
    case Fails => s.(book := s.book.(phase := Idle))
    case Kill => Pipeline(Do(s.db, Crash), s.book.(phase := Killed))
    case Boot => s.(book := BootBook(s.book))
  }

  ghost predicate CanRun(s: Pipeline, events: seq<Occurrence>)
    decreases |events|
  {
    events == [] || (CanOccur(s, events[0]) && CanRun(Then(s, events[0]), events[1..]))
  }

  ghost function End(s: Pipeline, events: seq<Occurrence>): Pipeline
    requires CanRun(s, events)
    decreases |events|
  {
    if events == [] then s else End(Then(s, events[0]), events[1..])
  }

  // ---- conservation ----

  ghost predicate Conserved(b: Book) {
    forall line: Line :: line < b.count ==> b.Kept(line)
  }

  /** Lines of the log that are settled have been put back by a recovery. */
  ghost predicate Resent(b: Book, lines: seq<Line>) {
    forall line :: line in lines && b.Settled(line) ==> line in b.resent
  }

  ghost predicate Within(b: Book, lines: seq<Line>) {
    forall line :: line in lines ==> line < b.count
  }

  /** What `pending` gained after `sending` was filled is new. */
  ghost predicate NewSince(b: Book, lines: seq<Line>) {
    b.sending != [] ==> forall line :: line in lines && line !in b.sending ==> !b.Settled(line)
  }

  ghost predicate Counted(b: Book) {
    && Within(b, b.pending) && Within(b, b.sending) && (b.phase.Rewriting? ==> Within(b, b.phase.todo))
    && forall line: Line :: b.Settled(line) ==> line < b.count
  }

  ghost predicate PhaseOk(b: Book) {
    match b.phase
    case Rotating => b.sending == []
    case Committing(_, _, _, lines) => lines == b.sending && !b.spent
    case Rotated(_, _) | Asking(_, _, _) | Mirrored(_, _, _) | Draining(_, _, _) => !b.spent
    case Discarding => b.spent
    case Rewriting(todo) =>
      b.sending != [] && Resent(b, todo) && NewSince(b, todo)
      && (forall line :: line in b.sending ==> line in b.pending || line in todo)
      && (b.spent ==> forall line :: line in b.sending ==> line in b.resent)
    case _ => true
  }

  /** What the phase says about the two files. */
  ghost predicate Tracked(b: Book) {
    && Counted(b) && PhaseOk(b)
    && (b.spent ==> forall line :: line in b.sending ==> b.Settled(line))
    && (!b.spent ==> Resent(b, b.sending))
    && (forall line :: line in b.resent ==> b.Settled(line))
    && Resent(b, b.pending) && NewSince(b, b.pending)
    && (!b.phase.Killed? && !b.phase.Rewriting? ==> forall line :: line in b.pending ==> line !in b.sending)
  }

  /**
   * The steps that lose a line: a synchronization begun over lines that one before it failed to
   * settle, and a kill while `recover` has overwritten lines that it holds in memory alone.
   */
  ghost predicate Loses(b: Book, e: Occurrence) {
    match e
    case Begin => !b.spent && exists line :: line in b.sending && line !in b.resent
    case Kill => b.phase.Rewriting? && exists line :: line in b.phase.todo && line !in b.pending && line !in b.sending
    case _ => false
  }

  ghost predicate Lossless(s: Pipeline, events: seq<Occurrence>)
    requires CanRun(s, events)
    decreases |events|
  {
    events == [] || (!Loses(s.book, events[0]) && Lossless(Then(s, events[0]), events[1..]))
  }

  // ---- each step ----

  lemma AppendTracks(b: Book, count: nat)
    requires Tracked(b) && b.count <= count && !b.phase.Rewriting? && !b.phase.Killed?
    ensures Tracked(Append(b, count)) && (Conserved(b) ==> Conserved(Append(b, count)))
  {
    var t := Append(b, count);
    assert forall line :: t.Settled(line) <==> b.Settled(line);
    forall line | line in t.pending ensures line in b.pending || b.count <= line < count {
    }
    forall line: Line | line < count && (line < b.count ==> b.Kept(line)) ensures t.Kept(line) {
      if b.count <= line {
        assert Lines(b.count, count)[line - b.count] == line;
      }
    }
  }

  lemma BeginTracks(b: Book)
    requires Tracked(b) && b.phase.Idle?
    ensures Tracked(Begun(b)) && (Conserved(b) ==> (Conserved(Begun(b)) <==> !Loses(b, Begin)))
  {
    var t := Begun(b);
    assert forall line :: t.Settled(line) <==> b.Settled(line);
    forall line | line in b.sending
      ensures t.Kept(line) <==> b.spent || line in b.resent
    {
    }
    forall line: Line | line !in b.sending && b.Kept(line) ensures t.Kept(line) {
    }
  }

  lemma RotateTracks(b: Book, had: nat)
    requires Tracked(b) && b.phase.Rotating?
    ensures Tracked(Rotate(b, had)) && (Conserved(b) ==> Conserved(Rotate(b, had)))
  {
    var t := Rotate(b, had);
    assert forall line :: t.Settled(line) <==> b.Settled(line);
    assert forall line :: b.Kept(line) ==> t.Kept(line);
  }

  lemma SettledAfterCommit(b: Book, v: Version, lines: seq<Line>, line: Line)
    ensures CommitTo(b, v, lines).Settled(line) <==> b.Settled(line) || line in lines
  {
    var t := CommitTo(b, v, lines);
    if line in lines {
      assert line in t.git[|b.git|].lines;
    }
    if b.Named(line) {
      var c :| 0 <= c < |b.git| && line in b.git[c].lines;
      assert line in t.git[c].lines;
    }
  }

  lemma CommitTracks(b: Book)
    requires Tracked(b) && b.phase.Committing?
    ensures
      var t := CommitTo(b, b.phase.version, b.phase.lines);
      Tracked(t) && (Conserved(b) ==> Conserved(t))
  {
    var t := CommitTo(b, b.phase.version, b.phase.lines);
    forall line ensures t.Settled(line) <==> b.Settled(line) || line in b.sending {
      SettledAfterCommit(b, b.phase.version, b.phase.lines, line);
    }
    assert forall line :: b.Kept(line) ==> t.Kept(line);
  }

  lemma SettledAfterClearing(b: Book, upTo: nat, had: nat, v: Version, line: Line)
    requires v.files == b.Tree(|b.git|)
    ensures Compare(b, upTo, had, v).Settled(line) <==> b.Settled(line) || line in b.sending
  {
    var t := Compare(b, upTo, had, v);
    if line in b.sending {
      assert line in t.cleared[|b.cleared|].lines;
    }
    if b.Cleared(line) {
      var c :| 0 <= c < |b.cleared| && line in b.cleared[c].lines;
      assert line in t.cleared[c].lines;
    }
  }

  lemma CompareTracks(b: Book)
    requires Tracked(b) && b.phase.Mirrored?
    ensures
      var t := Compare(b, b.phase.upTo, b.phase.had, b.phase.version);
      Tracked(t) && (Conserved(b) ==> Conserved(t))
  {
    var t := Compare(b, b.phase.upTo, b.phase.had, b.phase.version);
    if b.phase.version.files == b.Tree(|b.git|) {
      forall line ensures t.Settled(line) <==> b.Settled(line) || line in b.sending {
        SettledAfterClearing(b, b.phase.upTo, b.phase.had, b.phase.version, line);
      }
    } else {
      assert forall line :: t.Settled(line) <==> b.Settled(line);
    }
    assert forall line :: b.Kept(line) ==> t.Kept(line);
  }

  lemma DiscardTracks(b: Book)
    requires Tracked(b) && b.phase.Discarding?
    ensures
      var t := b.(sending := [], phase := Idle);
      Tracked(t) && (Conserved(b) ==> Conserved(t))
  {
    var t := b.(sending := [], phase := Idle);
    assert forall line :: t.Settled(line) <==> b.Settled(line);
    assert forall line :: b.Kept(line) ==> t.Kept(line);
  }

  /** Steps that only move the phase on. */
  lemma PhaseTracks(b: Book, phase: Phase)
    requires Tracked(b) && !b.phase.Rewriting? && !b.phase.Killed?
    requires PhaseOk(b.(phase := phase)) && !phase.Rewriting?
    ensures Tracked(b.(phase := phase)) && (Conserved(b) ==> Conserved(b.(phase := phase)))
  {
    var t := b.(phase := phase);
    assert forall line :: t.Settled(line) <==> b.Settled(line);
    assert forall line :: b.Kept(line) ==> t.Kept(line);
  }

  lemma KillTracks(b: Book)
    requires Tracked(b)
    ensures
      var t := b.(phase := Killed);
      Tracked(t) && (Conserved(b) ==> (Conserved(t) <==> !Loses(b, Kill)))
  {
    var t := b.(phase := Killed);
    assert forall line :: t.Settled(line) <==> b.Settled(line);
    if b.phase.Rewriting? {
      forall line | line in b.phase.todo && line !in b.pending && line !in b.sending
        ensures line < b.count && !t.Kept(line)
      {
      }
      forall line: Line | b.Kept(line) && !(line in b.phase.todo && line !in b.pending && line !in b.sending)
        ensures t.Kept(line)
      {
      }
    } else {
      assert forall line :: b.Kept(line) ==> t.Kept(line);
    }
  }

  lemma BootTracks(b: Book)
    requires Tracked(b) && b.phase.Killed?
    ensures Tracked(BootBook(b)) && (Conserved(b) ==> Conserved(BootBook(b)))
  {
    var t := BootBook(b);
    assert forall line :: t.Settled(line) <==> b.Settled(line);
    if b.sending != [] {
      forall line ensures line in t.phase.todo <==> line in b.sending || line in b.pending {
      }
    }
    assert forall line :: b.Kept(line) ==> t.Kept(line);
  }

  /** All is written: what was being sent is in `pending`, and `sending` can go. */
  lemma RestoredTracks(b: Book)
    requires Tracked(b) && b.phase == Rewriting([])
    ensures
      var t := b.(sending := [], phase := Idle);
      Tracked(t) && (Conserved(b) ==> Conserved(t))
  {
    var t := b.(sending := [], phase := Idle);
    assert forall line :: t.Settled(line) <==> b.Settled(line);
    forall line | b.Kept(line) ensures t.Kept(line) {
      if line in b.sending {
        assert line in b.pending;
      }
    }
  }

  lemma LineWritten(b: Book, todo: seq<Line>, line: Line)
    requires todo != []
    ensures line in todo <==> line == todo[0] || line in todo[1..]
    ensures line in b.pending + [todo[0]] <==> line in b.pending || line == todo[0]
  {
    assert todo == [todo[0]] + todo[1..];
  }

  lemma LineTracks(b: Book, todo: seq<Line>)
    requires Tracked(b) && b.phase == Rewriting(todo) && todo != []
    ensures
      var t := b.(pending := b.pending + [todo[0]], phase := Rewriting(todo[1..]));
      Tracked(t) && (Conserved(b) ==> Conserved(t))
  {
    var t := b.(pending := b.pending + [todo[0]], phase := Rewriting(todo[1..]));
    assert forall line :: t.Settled(line) <==> b.Settled(line);
    forall line
      ensures line in todo <==> line == todo[0] || line in todo[1..]
      ensures line in t.pending <==> line in b.pending || line == todo[0]
    {
      LineWritten(b, todo, line);
    }
    assert todo[0] in todo;
    forall line | b.Kept(line) ensures t.Kept(line) {
    }
  }

  lemma RewriteTracks(b: Book)
    requires Tracked(b) && b.phase.Rewriting?
    ensures
      var t := Rewrite(b, b.phase.todo);
      Tracked(t) && (Conserved(b) ==> Conserved(t))
  {
    if b.phase.todo == [] {
      RestoredTracks(b);
    } else {
      LineTracks(b, b.phase.todo);
    }
  }

  lemma ContinueTracks(s: Pipeline)
    requires Tracked(s.book) && CanContinue(s)
    ensures Tracked(Continued(s)) && (Conserved(s.book) ==> Conserved(Continued(s)))
  {
    match s.book.phase
    case Rotating => RotateTracks(s.book, |s.db.torn|);
    case Asking(upTo, had, pid) => PhaseTracks(s.book, Mirrored(upTo, had, s.db.procs[pid].outcome.version));
    case Mirrored(_, _, _) => CompareTracks(s.book);
    case Draining(upTo, had, v) => PhaseTracks(s.book, Committing(upTo, had, v, s.book.sending));
    case Committing(_, _, _, _) => CommitTracks(s.book);
    case Discarding => DiscardTracks(s.book);
    case Rewriting(_) => RewriteTracks(s.book);
  }

  /** From a state in which nothing is lost, a step loses something exactly if it is a losing one. */
  lemma StepTracks(s: Pipeline, e: Occurrence)
    requires CanOccur(s, e) && Tracked(s.book)
    ensures Tracked(Then(s, e).book)
    ensures Conserved(s.book) ==> (Conserved(Then(s, e).book) <==> !Loses(s.book, e))
  {
    match e
    case Db(a) => AppendTracks(s.book, |Do(s.db, a).disk.log|);
    case Begin => BeginTracks(s.book);
    case Ask(pid) => PhaseTracks(s.book, Asking(s.book.phase.upTo, s.book.phase.had, pid));
    case Continue => ContinueTracks(s);
    case Fails => PhaseTracks(s.book, Idle);
    case Kill => KillTracks(s.book);
    case Boot => BootTracks(s.book);
  }

  /** What is lost stays lost. */
  lemma LostStaysLost(s: Pipeline, e: Occurrence, line: Line)
    requires CanOccur(s, e) && Tracked(s.book) && line < s.book.count && !s.book.Kept(line)
    ensures line < Then(s, e).book.count && !Then(s, e).book.Kept(line)
  {
    var b, t := s.book, Then(s, e).book;
    if e.Continue? && b.phase.Committing? {
      SettledAfterCommit(b, b.phase.version, b.phase.lines, line);
    } else if e.Continue? && b.phase.Mirrored? && b.phase.version.files == b.Tree(|b.git|) {
      SettledAfterClearing(b, b.phase.upTo, b.phase.had, b.phase.version, line);
    } else {
      assert t.git == b.git && t.cleared == b.cleared;
    }
  }

  lemma {:induction false} RunStaysLost(s: Pipeline, events: seq<Occurrence>, line: Line)
    requires CanRun(s, events) && Tracked(s.book) && line < s.book.count && !s.book.Kept(line)
    ensures !Conserved(End(s, events).book)
    decreases |events|
  {
    if events == [] {
      assert !s.book.Kept(line);
    } else {
      StepTracks(s, events[0]);
      LostStaysLost(s, events[0], line);
      RunStaysLost(Then(s, events[0]), events[1..], line);
    }
  }

  lemma ContinueBringsNothing(s: Pipeline, line: Line)
    requires CanContinue(s) && !s.book.Logged(line)
    ensures !Continued(s).Logged(line)
  {
    var b := s.book;
    if b.phase.Rewriting? && b.phase.todo != [] {
      var todo := b.phase.todo;
      assert todo == [todo[0]] + todo[1..];
      assert line != todo[0] && line !in todo[1..];
    }
  }

  /** A line that has left the files never comes back. */
  lemma GoneStaysGone(s: Pipeline, e: Occurrence, line: Line)
    requires CanOccur(s, e) && line < s.book.count && !s.book.Logged(line)
    ensures line < Then(s, e).book.count && !Then(s, e).book.Logged(line)
  {
    var b := s.book;
    match e
    case Db(a) =>
      assert forall x :: x in Lines(b.count, |Do(s.db, a).disk.log|) ==> b.count <= x;
    case Continue => ContinueBringsNothing(s, line);
    case Boot =>
      assert line !in b.sending + b.pending;
    case _ =>
  }

  /** Nor is it named later. */
  lemma GoneStaysUnnamed(s: Pipeline, e: Occurrence, line: Line)
    requires CanOccur(s, e) && Tracked(s.book) && !s.book.Logged(line) && !s.book.Named(line)
    ensures !Then(s, e).book.Named(line)
  {
    var b, t := s.book, Then(s, e).book;
    if e.Continue? && b.phase.Committing? {
      forall c | 0 <= c < |t.git| ensures line !in t.git[c].lines {
        if c < |b.git| {
          assert t.git[c] == b.git[c];
        } else {
          assert t.git[c].lines == b.sending;
        }
      }
    } else {
      assert t.git == b.git;
    }
  }

  lemma {:induction false} RunStaysGone(s: Pipeline, events: seq<Occurrence>, line: Line)
    requires CanRun(s, events) && Tracked(s.book) && line < s.book.count && !s.book.Logged(line) && !s.book.Named(line)
    ensures !End(s, events).book.Named(line)
    decreases |events|
  {
    if events != [] {
      StepTracks(s, events[0]);
      GoneStaysGone(s, events[0], line);
      GoneStaysUnnamed(s, events[0], line);
      RunStaysGone(Then(s, events[0]), events[1..], line);
    }
  }

  /**
   * At-least-once attribution, exactly. Over any interleaving of engine actions, synchronizations,
   * failures and kills, every line ever appended is still in the log files (or, while `recover`
   * rewrites them, in its memory), was named by a commit, or was dropped because its change had been
   * committed already, if and only if no step of the run was a losing one.
   */
  lemma {:induction false} NothingIsLostIff(s: Pipeline, events: seq<Occurrence>)
    requires Tracked(s.book) && Conserved(s.book) && CanRun(s, events)
    ensures Tracked(End(s, events).book)
    ensures Conserved(End(s, events).book) <==> Lossless(s, events)
    decreases |events|
  {
    if events != [] {
      var next := Then(s, events[0]);
      StepTracks(s, events[0]);
      if Conserved(next.book) {
        NothingIsLostIff(next, events[1..]);
      } else {
        var line: Line :| line < next.book.count && !next.book.Kept(line);
        RunTracks(next, events[1..]);
        RunStaysLost(next, events[1..], line);
      }
    }
  }

  lemma {:induction false} RunTracks(s: Pipeline, events: seq<Occurrence>)
    requires Tracked(s.book) && CanRun(s, events)
    ensures Tracked(End(s, events).book)
    decreases |events|
  {
    if events != [] {
      StepTracks(s, events[0]);
      RunTracks(Then(s, events[0]), events[1..]);
    }
  }

  // ---- the two losing steps, as a caller can tell them ----

  /**
   * Retrying after a failure: what the next synchronization drops depends only on how far the failed
   * one got. Before it had renamed `pending`, or after its commit, nothing is lost; in between, every
   * line of `sending` is, but those a recovery had put back after they were settled.
   */
  lemma RetryLosesIff(b: Book)
    requires Tracked(b) && b.phase.Syncing()
    ensures Loses(b.(phase := Idle), Begin) <==> b.phase.Fresh() && exists line :: line in b.sending && line !in b.resent
  {
  }

  /** The book once a boot has rewritten `k` lines. */
  function Rewritten(b: Book, k: nat): Book
    requires b.phase.Killed? && b.sending != [] && k <= |b.sending + b.pending|
  {
    var all := b.sending + b.pending;
    BootBook(b).(pending := all[..k], phase := Rewriting(all[k..]))
  }

  lemma {:induction false} RewrittenIsReached(s: Pipeline, k: nat) returns (events: seq<Occurrence>)
    requires s.book.phase.Killed? && s.book.sending != [] && k <= |s.book.sending + s.book.pending|
    ensures CanRun(s, events) && End(s, events) == s.(book := Rewritten(s.book, k))
  {
    var all := s.book.sending + s.book.pending;
    if k == 0 {
      events := [Boot];
      assert events[1..] == [];
    } else {
      var before := RewrittenIsReached(s, k - 1);
      events := before + [Continue];
      assert all[k - 1..][1..] == all[k..] && all[..k - 1] + [all[k - 1]] == all[..k];
      RunOneMore(s, before, Continue);
    }
  }

  lemma {:induction false} RunOneMore(s: Pipeline, events: seq<Occurrence>, e: Occurrence)
    requires CanRun(s, events) && CanOccur(End(s, events), e)
    ensures CanRun(s, events + [e]) && End(s, events + [e]) == Then(End(s, events), e)
    decreases |events|
  {
    var all := events + [e];
    if events == [] {
      assert all[0] == e && all[1..] == [];
    } else {
      assert all[0] == events[0] && all[1..] == events[1..] + [e];
      RunOneMore(Then(s, events[0]), events[1..], e);
    }
  }

  /**
   * A boot can be killed at any point without loss if and only if, before it, every line of `pending`
   * is in `sending` as well: `recover` truncates the file it rewrites.
   */
  lemma BootIsSafeIff(b: Book)
    requires Tracked(b) && Conserved(b) && b.phase.Killed? && b.sending != []
    ensures (forall k: nat :: k <= |b.sending + b.pending| ==> !Loses(Rewritten(b, k), Kill))
            <==> forall line :: line in b.pending ==> line in b.sending
  {
    var all := b.sending + b.pending;
    if line :| line in b.pending && line !in b.sending {
      assert line in all[0..];
      assert Loses(Rewritten(b, 0), Kill);
    } else {
      forall k: nat | k <= |all| ensures !Loses(Rewritten(b, k), Kill) {
        forall line | line in all[k..] ensures line in b.sending {
          assert line in all;
        }
      }
    }
  }
}
