/** Every answer of a run at once: one order, one point each, crashes included. */
module EngineOrder {
  import opened Wrappers
  import opened Documents
  import opened Storage
  import opened Recovery
  import opened Requests
  import opened LockTable
  import opened Engine
  import opened EngineLocks
  import opened EngineHistory
  import opened EngineSteps
  import opened EngineTheorems

  /**
   * An answer given: to a call that came when `came` answers had been given and `since` calls had
   * committed, when `point` calls had committed.
   */
  datatype Verdict = Verdict(pid: Pid, call: Call, outcome: Outcome, came: nat, since: nat, point: nat)

  /** Kept beside a run: its answers in order, and how many there had been when each live call came. */
  datatype Ledger = Ledger(answers: seq<Verdict>, came: map<Pid, nat>)

  /** The call has just been told something. */
  predicate JustTold(s: State, t: State, pid: Pid) {
    && pid in s.procs && pid in t.procs
    && t.procs[pid].outcome != s.procs[pid].outcome && Tells(t.procs[pid].outcome)
  }

  function VerdictNow(t: State, pid: Pid, came: nat): Verdict
    requires pid in t.procs
  {
    Verdict(pid, t.procs[pid].call, t.procs[pid].outcome, came, t.procs[pid].since, |t.commits|)
  }

  function Note(l: Ledger, s: State, a: Action, t: State): Ledger {
    match a
    case Arrive(pid, _, _) => l.(came := l.came[pid := |l.answers|])
    case Advance(pid, _, _) =>
      if JustTold(s, t, pid) && pid in l.came then l.(answers := l.answers + [VerdictNow(t, pid, l.came[pid])]) else l
    case Crash => l.(came := map[])
    case _ => l
  }

  ghost function LedgerAfter(l: Ledger, s: State, actions: seq<Action>): Ledger
    requires Legal(s, actions)
    decreases |actions|
  {
    if actions == [] then l
    else
      var t := Do(s, actions[0]);
      LedgerAfter(Note(l, s, actions[0], t), t, actions[1..])
  }

  // ---- what a ledger keeps ----

  ghost predicate VerdictOk(s: State, x: Verdict) {
    && AnswersAt(s.versions, s.commits, x.pid, x.call, x.outcome, x.point)
    && x.since + (if x.outcome.Written? then 1 else 0) <= x.point <= |s.commits|
  }

  /** Points follow the order of the answers, and a write's own comes after all before it. */
  ghost predicate PointsInOrder(answers: seq<Verdict>) {
    forall i, j :: 0 <= i < j < |answers| ==>
      && answers[i].point <= answers[j].point
      && (answers[j].outcome.Written? ==> answers[i].point < answers[j].point)
  }

  /** A call that came after an answer came after its point. */
  ghost predicate InRealTime(answers: seq<Verdict>) {
    forall j :: 0 <= j < |answers| ==>
      answers[j].came <= j && forall i :: 0 <= i < answers[j].came ==> answers[i].point <= answers[j].since
  }

  ghost predicate Gave(l: Ledger, pid: Pid, p: Proc) {
    exists i :: 0 <= i < |l.answers| && l.answers[i].pid == pid && l.answers[i].call == p.call
                && l.answers[i].outcome == p.outcome && l.answers[i].since == p.since
  }

  /** No answer to a live call is missing. */
  ghost predicate NoneMissing(l: Ledger, s: State) {
    forall pid :: pid in s.procs && Tells(s.procs[pid].outcome) ==> Gave(l, pid, s.procs[pid])
  }

  ghost predicate CameOk(l: Ledger, s: State) {
    && l.came.Keys == s.procs.Keys
    && forall pid :: pid in s.procs ==>
         && l.came[pid] <= |l.answers|
         && forall i :: 0 <= i < l.came[pid] ==> l.answers[i].point <= s.procs[pid].since
  }

  /** While a commit is being finished every answer given is from before it. */
  ghost predicate Behind(l: Ledger, s: State) {
    forall pid :: pid in s.procs && Committing(s.procs[pid]) ==>
      forall i :: 0 <= i < |l.answers| ==> l.answers[i].point < |s.commits|
  }

  /** What a publication will answer is true of the last version. */
  ghost predicate PubNow(s: State) {
    forall pid :: pid in s.procs && s.procs[pid].pc.Publishing? && Tells(s.procs[pid].pc.result) ==>
      AnswersAt(s.versions, s.commits, pid, s.procs[pid].call, s.procs[pid].pc.result, |s.commits|)
  }

  ghost predicate AllOk(s: State, answers: seq<Verdict>) {
    forall i :: 0 <= i < |answers| ==> VerdictOk(s, answers[i])
  }

  ghost predicate LedgerOk(l: Ledger, s: State) {
    && AllOk(s, l.answers) && PointsInOrder(l.answers) && InRealTime(l.answers)
    && NoneMissing(l, s) && CameOk(l, s) && Behind(l, s) && PubNow(s)
  }

  // ---- who is told, and when ----

  lemma LocksTellNothing(s: State, pid: Pid)
    requires CanAdvance(s, pid)
    ensures s.procs[pid].pc.Booting? ==> !JustTold(s, Start(s, pid), pid)
    ensures s.procs[pid].pc.Acquiring? ==> !JustTold(s, Acquire(s, pid), pid)
    ensures s.procs[pid].pc.Releasing? ==> !JustTold(s, Release(s, pid), pid)
  {
  }

  lemma WorkTellsNothing(s: State, pid: Pid, tx: TxId, how: Manner)
    requires CanAdvance(s, pid)
    ensures s.procs[pid].pc.Checking? ==> !JustTold(s, Check(s, pid), pid)
    ensures s.procs[pid].pc.Reading? ==> !JustTold(s, Read(s, pid), pid)
    ensures s.procs[pid].pc.Comparing? ==> !JustTold(s, Compare(s, pid, tx), pid)
    ensures s.procs[pid].pc.Staging? ==> !JustTold(s, Stage(s, pid, s.procs[pid].pc.j), pid)
    ensures s.procs[pid].pc.Entering? ==> !JustTold(s, Enter(s, pid, how), pid)
  {
  }

  /** Answers are given under the publication lock, and are those of the last version. */
  lemma ToldNow(s: State, pid: Pid, tx: TxId, how: Manner)
    requires Inv(s) && PubNow(s) && Enabled(s, Advance(pid, tx, how))
    requires JustTold(s, Go(s, pid, tx, how), pid)
    ensures
      var t := Go(s, pid, tx, how);
      var o := t.procs[pid].outcome;
      && Heads(s.pub, pid) && !s.procs[pid].pc.Entering? && (o.Written? ==> Committing(s.procs[pid]))
      && !t.procs[pid].pc.Publishing? && AnswersAt(s.versions, s.commits, pid, s.procs[pid].call, o, |s.commits|)
  {
    LocksTellNothing(s, pid);
    WorkTellsNothing(s, pid, tx, how);
    match s.procs[pid].pc
    case Looking => LookNow(s, pid);
    case Refusing => RefuseNow(s, pid);
    case Publishing(script, result) => ResultNow(s, pid);
    case _ =>
  }

  lemma LookNow(s: State, pid: Pid)
    requires Inv(s) && CanAdvance(s, pid) && s.procs[pid].pc.Looking? && !s.broken
    ensures AnswersAt(s.versions, s.commits, pid, s.procs[pid].call, Sight(s.procs[pid].call, s.disk), |s.commits|)
  {
    LiveFilesAreLast(s, pid);
    assert PointOk(s.procs[pid], s.table.wants[pid]);
    BesideSplits(s.disk.files, s.disk.strays);
  }

  lemma RefuseNow(s: State, pid: Pid)
    requires Inv(s) && CanAdvance(s, pid) && s.procs[pid].pc.Refusing? && !s.broken
    ensures AnswersAt(s.versions, s.commits, pid, s.procs[pid].call, Conflict(s.disk.revision), |s.commits|)
  {
    LiveFilesAreLast(s, pid);
    assert ProcInv(s, pid) && ProcOk(s.procs[pid]);
    MismatchForbids(s.Last().files, s.procs[pid]);
  }

  lemma ResultNow(s: State, pid: Pid)
    requires CanAdvance(s, pid) && s.procs[pid].pc.Publishing?
    ensures
      var t := Proceed(s, pid, s.procs[pid].pc.script, s.procs[pid].pc.result);
      JustTold(s, t, pid) ==> t.procs[pid].outcome == s.procs[pid].pc.result && !t.procs[pid].pc.Publishing?
  {
  }

  // ---- what a publication will answer ----

  lemma EnterNow(s: State, pid: Pid, how: Manner)
    requires Here(s, pid) && s.procs[pid].pc.Entering? && DistinctPaths(s.procs[pid].Muts())
    requires |s.versions| == |s.commits| + 1
    requires !s.broken ==> Version(s.disk.revision, s.disk.files) == s.Last()
    ensures
      var t := Enter(s, pid, how);
      && pid in t.procs
      && (t.procs[pid].pc.Publishing? && Tells(t.procs[pid].pc.result) ==>
            AnswersAt(t.versions, t.commits, pid, t.procs[pid].call, t.procs[pid].pc.result, |t.commits|))
  {
    var p := s.procs[pid];
    if Publishes(s, pid) {
      EnterCommits(s, pid, how);
    } else if !s.broken {
      MismatchForbids(s.Last().files, p);
      if p.tx == None && ChecksHold(s.disk.files, p.call.req) {
        NothingToDo(s.Last().files, p);
      }
    }
  }

  /** Nobody commits while another publishes. */
  lemma NoCommitBeside(s: State, pid: Pid, tx: TxId, how: Manner)
    requires PubOk(s) && CanAdvance(s, pid)
    requires exists x :: x in s.procs && x != pid && s.procs[x].pc.Publishing?
    ensures Go(s, pid, tx, how).versions == s.versions && Go(s, pid, tx, how).commits == s.commits
  {
    var x :| x in s.procs && x != pid && s.procs[x].pc.Publishing?;
    assert Heads(s.pub, x);
    OthersKeepHistory(s, pid, tx, how);
  }

  lemma PublisherMoves(s: State, pid: Pid, tx: TxId, how: Manner)
    requires Inv(s) && PubNow(s) && CanAdvance(s, pid)
    ensures
      var t := Go(s, pid, tx, how);
      && pid in t.procs
      && (t.procs[pid].pc.Publishing? && Tells(t.procs[pid].pc.result) ==>
            AnswersAt(t.versions, t.commits, pid, t.procs[pid].call, t.procs[pid].pc.result, |t.commits|))
  {
    if s.procs[pid].pc.Entering? {
      assert Here(s, pid);
      UpInBody(s, pid);
      if !s.broken {
        LiveFilesAreLast(s, pid);
      }
      EnterNow(s, pid, how);
    } else {
      OthersKeepHistory(s, pid, tx, how);
      KeepsResult(s, pid, tx, how);
    }
  }

  lemma KeepsResult(s: State, pid: Pid, tx: TxId, how: Manner)
    requires CanAdvance(s, pid) && !s.procs[pid].pc.Entering?
    ensures
      var t := Go(s, pid, tx, how);
      && pid in t.procs && t.procs[pid].call == s.procs[pid].call
      && (t.procs[pid].pc.Publishing? ==> s.procs[pid].pc.Publishing? && t.procs[pid].pc.result == s.procs[pid].pc.result)
  {
  }

  lemma AdvancePubNow(s: State, pid: Pid, tx: TxId, how: Manner)
    requires Inv(s) && PubNow(s) && Enabled(s, Advance(pid, tx, how))
    ensures PubNow(Go(s, pid, tx, how))
  {
    var t := Go(s, pid, tx, how);
    StepMoves(s, Advance(pid, tx, how));
    PublisherMoves(s, pid, tx, how);
    forall x | x in t.procs && t.procs[x].pc.Publishing? && Tells(t.procs[x].pc.result)
      ensures AnswersAt(t.versions, t.commits, x, t.procs[x].call, t.procs[x].pc.result, |t.commits|)
    {
      if x != pid {
        assert t.procs[x] == s.procs[x];
        NoCommitBeside(s, pid, tx, how);
      }
    }
  }

  // ---- the ledger, one action on ----

  lemma AnswersStay(s: State, t: State, answers: seq<Verdict>)
    requires AllOk(s, answers) && s.versions <= t.versions && s.commits <= t.commits
    ensures AllOk(t, answers)
  {
    forall i | 0 <= i < |answers| ensures VerdictOk(t, answers[i]) {
      var x := answers[i];
      AnswerStands(s.versions, s.commits, t.versions, t.commits, x.pid, x.call, x.outcome, x.point);
    }
  }

  /** The new answer is the last in order, and comes after all there were when its call came. */
  lemma NewAnswer(l: Ledger, s: State, t: State, pid: Pid)
    requires LedgerOk(l, s) && pid in s.procs && pid in t.procs && t.commits == s.commits && t.versions == s.versions
    requires t.procs[pid].since == s.procs[pid].since && t.procs[pid].call == s.procs[pid].call
    requires AnswersAt(s.versions, s.commits, pid, s.procs[pid].call, t.procs[pid].outcome, |s.commits|)
    requires s.procs[pid].since + (if t.procs[pid].outcome.Written? then 1 else 0) <= |s.commits|
    requires t.procs[pid].outcome.Written? ==> Committing(s.procs[pid])
    ensures
      var answers := l.answers + [VerdictNow(t, pid, l.came[pid])];
      AllOk(t, answers) && PointsInOrder(answers) && InRealTime(answers)
  {
    var answers := l.answers + [VerdictNow(t, pid, l.came[pid])];
    forall i, j | 0 <= i < j < |answers|
      ensures answers[i].point <= answers[j].point
      ensures answers[j].outcome.Written? ==> answers[i].point < answers[j].point
    {
      assert VerdictOk(s, l.answers[i]);
    }
  }

  lemma GaveMore(l: Ledger, m: Ledger, pid: Pid, p: Proc)
    requires Gave(l, pid, p) && l.answers <= m.answers
    ensures Gave(m, pid, p)
  {
    var i :| 0 <= i < |l.answers| && l.answers[i].pid == pid && l.answers[i].call == p.call
             && l.answers[i].outcome == p.outcome && l.answers[i].since == p.since;
    assert m.answers[i] == l.answers[i];
  }

  /** A move of one call: the others' entries stand. */
  lemma MoverNoted(l: Ledger, m: Ledger, s: State, t: State, pid: Pid)
    requires LedgerOk(l, s) && pid in s.procs && pid in t.procs && t.procs == s.procs[pid := t.procs[pid]]
    requires t.procs[pid].since == s.procs[pid].since && t.procs[pid].call == s.procs[pid].call
    requires l.answers <= m.answers && m.came == l.came
    requires Tells(t.procs[pid].outcome) ==> t.procs[pid].outcome == s.procs[pid].outcome || Gave(m, pid, t.procs[pid])
    ensures NoneMissing(m, t) && CameOk(m, t)
  {
    forall x | x in t.procs && Tells(t.procs[x].outcome) ensures Gave(m, x, t.procs[x]) {
      if x != pid || t.procs[pid].outcome == s.procs[pid].outcome {
        GaveMore(l, m, x, s.procs[x]);
      }
    }
  }

  lemma SinceInTime(s: State, pid: Pid)
    requires Inv(s) && pid in s.procs
    ensures s.procs[pid].since <= |s.commits| && (Committing(s.procs[pid]) ==> s.procs[pid].since < |s.commits|)
  {
    var p := s.procs[pid];
    assert ProcInv(s, pid);
    if Committing(p) {
      var n: nat :| AnswersAt(s.versions, s.commits, pid, p.call, p.pc.result, n) && InTime(p, p.pc.result, n);
    }
  }

  lemma ToldNoted(l: Ledger, s: State, pid: Pid, tx: TxId, how: Manner)
    requires Inv(s) && LedgerOk(l, s) && Enabled(s, Advance(pid, tx, how))
    requires JustTold(s, Go(s, pid, tx, how), pid)
    ensures LedgerOk(Note(l, s, Advance(pid, tx, how), Go(s, pid, tx, how)), Go(s, pid, tx, how))
  {
    var t := Go(s, pid, tx, how);
    var m := Note(l, s, Advance(pid, tx, how), t);
    StepMoves(s, Advance(pid, tx, how));
    ToldNow(s, pid, tx, how);
    OthersKeepHistory(s, pid, tx, how);
    SinceInTime(s, pid);
    AdvancePubNow(s, pid, tx, how);
    NewAnswer(l, s, t, pid);
    assert m.answers[|l.answers|] == VerdictNow(t, pid, l.came[pid]);
    MoverNoted(l, m, s, t, pid);
    NobodyCommits(s, t, pid);
  }

  lemma NobodyCommits(s: State, t: State, pid: Pid)
    requires PubOk(s) && Heads(s.pub, pid) && pid in s.procs && pid in t.procs
    requires t.procs == s.procs[pid := t.procs[pid]] && !t.procs[pid].pc.Publishing?
    ensures forall x :: x in t.procs ==> !Committing(t.procs[x])
  {
    OnePublisher(s, pid);
  }

  lemma UntoldNoted(l: Ledger, s: State, pid: Pid, tx: TxId, how: Manner)
    requires Inv(s) && LedgerOk(l, s) && Enabled(s, Advance(pid, tx, how))
    requires !JustTold(s, Go(s, pid, tx, how), pid)
    ensures LedgerOk(l, Go(s, pid, tx, how))
  {
    var t := Go(s, pid, tx, how);
    StepMoves(s, Advance(pid, tx, how));
    HistoryStep(s, Advance(pid, tx, how));
    AnswersStay(s, t, l.answers);
    AdvancePubNow(s, pid, tx, how);
    MoverNoted(l, l, s, t, pid);
    StillBehind(l, s, pid, tx, how);
  }

  lemma StillBehind(l: Ledger, s: State, pid: Pid, tx: TxId, how: Manner)
    requires PubOk(s) && Behind(l, s) && AllOk(s, l.answers) && CanAdvance(s, pid)
    requires
      var t := Go(s, pid, tx, how);
      pid in t.procs && t.procs == s.procs[pid := t.procs[pid]]
    ensures Behind(l, Go(s, pid, tx, how))
  {
    var t := Go(s, pid, tx, how);
    if s.procs[pid].pc.Entering? {
      OnePublisher(s, pid);
      EnterCounts(s, pid, how);
      forall i | 0 <= i < |l.answers| ensures l.answers[i].point <= |s.commits| {
        assert VerdictOk(s, l.answers[i]);
      }
    } else {
      OthersKeepHistory(s, pid, tx, how);
      KeepsResult(s, pid, tx, how);
      forall x | x in t.procs && Committing(t.procs[x]) ensures x in s.procs && Committing(s.procs[x]) {
        assert x != pid ==> t.procs[x] == s.procs[x];
      }
    }
  }

  lemma EnterCounts(s: State, pid: Pid, how: Manner)
    requires CanAdvance(s, pid) && s.procs[pid].pc.Entering?
    ensures
      var t := Enter(s, pid, how);
      pid in t.procs && (Committing(t.procs[pid]) ==> |t.commits| == |s.commits| + 1)
  {
  }

  lemma FailNoted(l: Ledger, s: State, pid: Pid, harm: bool)
    requires LedgerOk(l, s) && CanFail(s, pid)
    ensures LedgerOk(l, Throw(s, pid, harm))
  {
    var t := Throw(s, pid, harm);
    ThrowSays(s, pid, harm);
    AnswersStay(s, t, l.answers);
    MoverNoted(l, l, s, t, pid);
    FewerPublish(l, s, t);
  }

  lemma FewerPublish(l: Ledger, s: State, t: State)
    requires Behind(l, s) && PubNow(s) && t.versions == s.versions && t.commits == s.commits
    requires forall x :: x in t.procs && t.procs[x].pc.Publishing? ==> x in s.procs && t.procs[x] == s.procs[x]
    ensures Behind(l, t) && PubNow(t)
  {
  }

  lemma ThrowSays(s: State, pid: Pid, harm: bool)
    requires CanFail(s, pid)
    ensures
      var t := Throw(s, pid, harm);
      && t.versions == s.versions && t.commits == s.commits && pid in t.procs
      && t.procs == s.procs[pid := t.procs[pid]] && t.procs[pid].since == s.procs[pid].since
      && t.procs[pid].call == s.procs[pid].call && t.procs[pid].outcome == Failed && !t.procs[pid].pc.Publishing?
  {
  }

  lemma ArriveNoted(l: Ledger, s: State, pid: Pid, call: Call, order: seq<Path>)
    requires LedgerOk(l, s) && Enabled(s, Arrive(pid, call, order))
    ensures
      var a := Arrive(pid, call, order);
      LedgerOk(Note(l, s, a, Do(s, a)), Do(s, a))
  {
    var a := Arrive(pid, call, order);
    var t := Do(s, a);
    var m := Note(l, s, a, t);
    AnswersStay(s, t, l.answers);
    FewerPublish(m, s, t);
    forall i | 0 <= i < |l.answers| ensures l.answers[i].point <= |s.commits| {
      assert VerdictOk(s, l.answers[i]);
    }
    forall x | x in t.procs && Tells(t.procs[x].outcome) ensures Gave(m, x, t.procs[x]) {
      GaveMore(l, m, x, s.procs[x]);
    }
  }

  /** Boots and kills answer nobody. */
  lemma BootNoted(l: Ledger, s: State, a: Action)
    requires LedgerOk(l, s) && Enabled(s, a) && (a.Crash? || a.Restart? || a.Recover? || a.RecoverFails?)
    ensures LedgerOk(Note(l, s, a, Do(s, a)), Do(s, a))
  {
    var t := Do(s, a);
    assert t.procs == s.procs || t.procs == map[];
    AnswersStay(s, t, l.answers);
  }

  lemma ActionNoted(l: Ledger, s: State, a: Action)
    requires Inv(s) && LedgerOk(l, s) && Enabled(s, a)
    ensures LedgerOk(Note(l, s, a, Do(s, a)), Do(s, a))
  {
    match a
    case Arrive(pid, call, order) => ArriveNoted(l, s, pid, call, order);
    case Advance(pid, tx, how) =>
      if JustTold(s, Go(s, pid, tx, how), pid) {
        ToldNoted(l, s, pid, tx, how);
      } else {
        UntoldNoted(l, s, pid, tx, how);
      }
    case Fail(pid, harm) => FailNoted(l, s, pid, harm);
    case _ => BootNoted(l, s, a);
  }

  lemma {:induction false} RunNoted(l: Ledger, s: State, actions: seq<Action>)
    requires Inv(s) && LedgerOk(l, s) && Legal(s, actions)
    ensures LedgerOk(LedgerAfter(l, s, actions), After(s, actions))
    decreases |actions|
  {
    if actions != [] {
      ActionKeeps(s, actions[0]);
      ActionNoted(l, s, actions[0]);
      RunNoted(Note(l, s, actions[0], Do(s, actions[0])), Do(s, actions[0]), actions[1..]);
    }
  }

  lemma {:induction false} AnswersGrow(l: Ledger, s: State, actions: seq<Action>)
    requires Legal(s, actions)
    ensures l.answers <= LedgerAfter(l, s, actions).answers
    decreases |actions|
  {
    if actions != [] {
      var m := Note(l, s, actions[0], Do(s, actions[0]));
      AnswersGrow(m, Do(s, actions[0]), actions[1..]);
      assert l.answers <= m.answers;
    }
  }

  /** An answer given at any point of the run is still in the ledger at its end. */
  lemma {:induction false} NothingForgotten(l: Ledger, s: State, actions: seq<Action>, k: nat, pid: Pid)
    requires Inv(s) && LedgerOk(l, s) && Legal(s, actions) && k <= |actions| && Legal(s, actions[..k])
    requires
      var now := After(s, actions[..k]);
      pid in now.procs && Tells(now.procs[pid].outcome)
    ensures Gave(LedgerAfter(l, s, actions), pid, After(s, actions[..k]).procs[pid])
    decreases k
  {
    if k == 0 {
      AnswersGrow(l, s, actions);
      GaveMore(l, LedgerAfter(l, s, actions), pid, s.procs[pid]);
    } else {
      var a, t := actions[0], Do(s, actions[0]);
      assert actions[..k][0] == a && actions[..k][1..] == actions[1..][..k - 1];
      ActionKeeps(s, a);
      ActionNoted(l, s, a);
      NothingForgotten(Note(l, s, a, t), t, actions[1..], k - 1, pid);
    }
  }

  /** The call has its answer once the first `k` actions are taken. */
  ghost predicate Answered(s: State, actions: seq<Action>, k: nat, pid: Pid)
    requires k <= |actions|
  {
    && Legal(s, actions[..k])
    && var now := After(s, actions[..k]);
       pid in now.procs && Tells(now.procs[pid].outcome)
  }

  /**
   * One order for all. Take every answer given at any moment of a run, those to calls a crash has since
   * ended among them, each with the number of calls committed when it was given as its point. At these
   * points the committed history gives every one of those answers; each point lies between its call's
   * arrival and its answer; the points follow the order in which the answers were given, a write's own
   * strictly; and a call that came after an answer was given came after that answer's point.
   */
  lemma OneOrder(s: State, actions: seq<Action>)
    requires Init(s) && Legal(s, actions)
    ensures
      var t := After(s, actions);
      var answers := LedgerAfter(Ledger([], map[]), s, actions).answers;
      && Lineage(t.versions, t.commits)
      && (forall i :: 0 <= i < |answers| ==> VerdictOk(t, answers[i]))
      && PointsInOrder(answers) && InRealTime(answers)
    ensures forall k: nat, pid :: k <= |actions| && Answered(s, actions, k, pid) ==>
              Gave(LedgerAfter(Ledger([], map[]), s, actions), pid, After(s, actions[..k]).procs[pid])
  {
    var none := Ledger([], map[]);
    InitHolds(s);
    RunKeepsInv(s, actions);
    RunNoted(none, s, actions);
    forall k: nat, pid | k <= |actions| && Answered(s, actions, k, pid)
      ensures Gave(LedgerAfter(none, s, actions), pid, After(s, actions[..k]).procs[pid])
    {
      NothingForgotten(none, s, actions, k, pid);
    }
  }
}
