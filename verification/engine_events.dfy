/** Every committed change is handed to `onWrite`, whatever crashes: the journal goes only after the events. */
module EngineEvents {
  import opened Wrappers
  import opened Documents
  import opened Storage
  import opened Recovery
  import opened Requests
  import opened LockTable
  import opened Engine
  import opened EngineLocks
  import opened EngineHistory
  import opened EngineSteps
  import opened EngineTheorems

  // ---- scripts that pay before they forget ----

  /** A recorded intent is dropped only when all its events are out, and those go out after its revision. */
  ghost predicate StepPays(d: Disk, s: Step) {
    match s
    case PutIntent(_, _) => false
    case Unlink(id, item) => item.IntentItem? && Pending(d, id) ==> Attributed(d.log, id, IntentOf(d, id))
    case RemoveDir(id) => Pending(d, id) ==> Attributed(d.log, id, IntentOf(d, id))
    case Emit(e) => e.revision <= d.revision
    case PutRevision(_, n, _) => d.revision <= n
    case _ => true
  }

  ghost predicate Pays(d: Disk, steps: seq<Step>)
    decreases |steps|
  {
    steps == [] || (StepPays(d, steps[0]) && Pays(Exec(d, steps[0]), steps[1..]))
  }

  lemma {:induction false} PaysConcat(d: Disk, a: seq<Step>, b: seq<Step>)
    requires Pays(d, a) && Pays(Run(d, a), b)
    ensures Pays(d, a + b)
    decreases |a|
  {
    if a == [] {
      assert a + b == b;
    } else {
      assert (a + b)[0] == a[0] && (a + b)[1..] == a[1..] + b;
      PaysConcat(Exec(d, a[0]), a[1..], b);
    }
  }

  /** Steps that only put targets in place. */
  predicate Lands(steps: seq<Step>) {
    forall k :: 0 <= k < |steps| ==> steps[k].Install? || steps[k].Remove?
  }

  lemma {:induction false} LandingPays(d: Disk, steps: seq<Step>)
    requires Lands(steps)
    ensures Pays(d, steps) && SameIntents(d, Run(d, steps)) && Run(d, steps).revision == d.revision
    decreases |steps|
  {
    if steps != [] {
      LandingPays(Exec(d, steps[0]), steps[1..]);
    }
  }

  lemma {:induction false} ApplyLands(d: Disk, id: TxId, ts: seq<Target>, i: nat)
    ensures Lands(ApplyScript(d, id, ts, i))
    decreases |ts| - i
  {
    if i < |ts| {
      ApplyLands(Run(d, ApplyOne(d.files, id, i, ts[i])), id, ts, i + 1);
    }
  }

  lemma RevisionPays(d: Disk, id: TxId, it: Intent, temp: Temp)
    requires d.revision <= it.revision
    ensures Pays(d, RevisionScript(d, id, it, temp))
    ensures
      var e := Run(d, RevisionScript(d, id, it, temp));
      e == d.(revision := it.revision, strays := e.strays)
  {
    if d.revision != it.revision {
      var open := Exec(d, OpenTemp(id, temp));
      OneStep(open, PutRevision(id, it.revision, temp));
      assert RevisionScript(d, id, it, temp)[1..] == [PutRevision(id, it.revision, temp)];
      assert [PutRevision(id, it.revision, temp)][1..] == [];
    }
  }

  lemma {:induction false} EmitPays(d: Disk, events: seq<Event>)
    requires forall e :: e in events ==> e.revision <= d.revision
    ensures Pays(d, EmitScript(events))
    decreases |events|
  {
    if events != [] {
      assert EmitScript(events)[0] == Emit(events[0]) && EmitScript(events)[1..] == EmitScript(events[1..]);
      EmitPays(Exec(d, Emit(events[0])), events[1..]);
    }
  }

  lemma {:induction false} EventsOf(id: TxId, it: Intent, i: nat)
    ensures forall e :: e in Events(id, it, i) ==> exists k :: i <= k < |it.targets| && e == EventFor(id, it, it.targets[k])
    decreases |it.targets| - i
  {
    if i < |it.targets| {
      EventsOf(id, it, i + 1);
    }
  }

  lemma {:induction false} SweepPays(d: Disk, id: TxId, order: seq<Item>)
    requires Pending(d, id) ==> Attributed(d.log, id, IntentOf(d, id))
    ensures Pays(d, SweepScript(id, order))
    decreases |order|
  {
    if order != [] {
      SweepPays(Exec(d, Unlink(id, order[0])), id, order[1..]);
      assert SweepScript(id, order)[1..] == SweepScript(id, order[1..]);
    } else {
      assert SweepScript(id, order)[1..] == [];
    }
  }

  lemma FinishPays(d: Disk, id: TxId, how: Manner)
    requires Pending(d, id) && d.revision <= IntentOf(d, id).revision
    ensures Pays(d, FinishScript(d, id, IntentOf(d, id), how))
  {
    var it := IntentOf(d, id);
    var apply, revision := ApplyScript(d, id, it.targets, 0), RevisionScript(d, id, it, how.temp);
    var emit, sweep := EmitScript(Events(id, it, 0)), SweepScript(id, how.order);
    ApplyLands(d, id, it.targets, 0);
    LandingPays(d, apply);
    var d1 := Run(d, apply);
    RevisionPays(d1, id, it, how.temp);
    var d2 := Run(d1, revision);
    EventsOf(id, it, 0);
    EmitPays(d2, Events(id, it, 0));
    EmitRuns(d2, Events(id, it, 0));
    EventsCover(id, it, 0);
    SweepPays(Run(d2, emit), id, how.order);
    PaysConcat(d, apply, revision);
    RunConcat(d, apply, revision);
    PaysConcat(d, apply + revision, emit);
    RunConcat(d, apply + revision, emit);
    PaysConcat(d, apply + revision + emit, sweep);
  }

  lemma {:induction false} OrphansPay(d: Disk, listing: seq<Entry>)
    ensures Pays(d, OrphanScript(d, listing))
    decreases |listing|
  {
    if listing != [] {
      var e := listing[0];
      var one := if e.id in d.dirs && !Pending(d, e.id) then SweepScript(e.id, e.how.order) else [];
      if one != [] {
        SweepPays(d, e.id, e.how.order);
      }
      OrphansPay(Run(d, one), listing[1..]);
      PaysConcat(d, one, OrphanScript(Run(d, one), listing[1..]));
    }
  }

  lemma {:induction false} ReplayPays(d: Disk, listing: seq<Entry>)
    requires Recoverable(d)
    ensures Pays(d, ReplayScript(d, listing))
    decreases |listing|
  {
    if listing != [] {
      var e := listing[0];
      if Pending(d, e.id) {
        var one := FinishScript(d, e.id, IntentOf(d, e.id), e.how);
        FinishPays(d, e.id, e.how);
        FinishRuns(d, e.id, e.how);
        assert forall x :: Pending(Run(d, one), x) ==> Pending(d, x) && x != e.id;
        NothingToReplay(Run(d, one), listing[1..]);
        assert ReplayScript(d, listing) == one;
      } else {
        ReplayPays(d, listing[1..]);
        assert ReplayScript(d, listing) == ReplayScript(d, listing[1..]);
      }
    }
  }

  lemma RecoverPays(d: Disk, listing: seq<Entry>, v: Version)
    requires Recoverable(d) && Denotes(d, v)
    ensures Pays(d, RecoverScript(d, listing))
  {
    var sweep := OrphanScript(d, listing);
    OrphansPay(d, listing);
    OrphansRun(d, listing, v);
    RunKeeps(d, sweep, v);
    ReplayPays(Run(d, sweep), listing);
    PaysConcat(d, sweep, ReplayScript(Run(d, sweep), listing));
  }

  // ---- scripts that tell the truth ----

  predicate ShownBy(v: Version, e: Event) {
    v.revision == e.revision && EtagAt(v.files, e.path) == e.hash
  }

  /** A committed version of the event's revision holds what the event says. */
  ghost predicate Real(versions: seq<Version>, e: Event) {
    exists n :: 0 <= n < |versions| && ShownBy(versions[n], e)
  }

  ghost predicate Truthful(versions: seq<Version>, steps: seq<Step>) {
    forall k :: 0 <= k < |steps| && steps[k].Emit? ==> Real(versions, steps[k].event)
  }

  lemma TruthfulConcat(versions: seq<Version>, a: seq<Step>, b: seq<Step>)
    requires Truthful(versions, a) && Truthful(versions, b)
    ensures Truthful(versions, a + b)
  {
  }

  lemma {:induction false} EmitTruthful(versions: seq<Version>, events: seq<Event>)
    requires forall e :: e in events ==> Real(versions, e)
    ensures Truthful(versions, EmitScript(events))
  {
    if events != [] {
      EmitTruthful(versions, events[1..]);
      TruthfulConcat(versions, [Emit(events[0])], EmitScript(events[1..]));
    }
  }

  lemma {:induction false} SweepTruthful(versions: seq<Version>, id: TxId, order: seq<Item>)
    ensures Truthful(versions, SweepScript(id, order))
  {
    if order != [] {
      SweepTruthful(versions, id, order[1..]);
    }
  }

  /** What finishing a transaction reports is what the database it stands for holds. */
  lemma FinishTruthful(versions: seq<Version>, d: Disk, id: TxId, how: Manner)
    requires Pending(d, id) && Distinct(IntentOf(d, id).targets) && versions != []
    requires versions[|versions| - 1] == Version(IntentOf(d, id).revision, Overlay(d.files, IntentOf(d, id).targets))
    ensures Truthful(versions, FinishScript(d, id, IntentOf(d, id), how))
  {
    var it := IntentOf(d, id);
    var events := Events(id, it, 0);
    OverlayLands(d.files, it.targets);
    EventsOf(id, it, 0);
    forall e | e in events ensures Real(versions, e) {
      var k :| 0 <= k < |it.targets| && e == EventFor(id, it, it.targets[k]);
      assert Landed(Overlay(d.files, it.targets), it.targets[k]);
      assert ShownBy(versions[|versions| - 1], e);
    }
    ApplyLands(d, id, it.targets, 0);
    EmitTruthful(versions, events);
    SweepTruthful(versions, id, how.order);
    TruthfulConcat(versions, ApplyScript(d, id, it.targets, 0) + RevisionScript(d, id, it, how.temp), EmitScript(events));
  }

  lemma {:induction false} OrphansTruthful(versions: seq<Version>, d: Disk, listing: seq<Entry>)
    ensures Truthful(versions, OrphanScript(d, listing))
    decreases |listing|
  {
    if listing != [] {
      var e := listing[0];
      var one := if e.id in d.dirs && !Pending(d, e.id) then SweepScript(e.id, e.how.order) else [];
      SweepTruthful(versions, e.id, e.how.order);
      OrphansTruthful(versions, Run(d, one), listing[1..]);
    }
  }

  lemma {:induction false} ReplayTruthful(versions: seq<Version>, d: Disk, listing: seq<Entry>)
    requires versions != [] && Recoverable(d) && Denotes(d, versions[|versions| - 1])
    ensures Truthful(versions, ReplayScript(d, listing))
    decreases |listing|
  {
    if listing != [] {
      var e := listing[0];
      if Pending(d, e.id) {
        var one := FinishScript(d, e.id, IntentOf(d, e.id), e.how);
        FinishTruthful(versions, d, e.id, e.how);
        FinishRuns(d, e.id, e.how);
        assert forall x :: Pending(Run(d, one), x) ==> Pending(d, x) && x != e.id;
        NothingToReplay(Run(d, one), listing[1..]);
        assert ReplayScript(d, listing) == one;
      } else {
        ReplayTruthful(versions, d, listing[1..]);
        assert ReplayScript(d, listing) == ReplayScript(d, listing[1..]);
      }
    }
  }

  lemma RecoverTruthful(versions: seq<Version>, d: Disk, listing: seq<Entry>)
    requires versions != [] && Recoverable(d) && Denotes(d, versions[|versions| - 1])
    ensures Truthful(versions, RecoverScript(d, listing))
  {
    var sweep := OrphanScript(d, listing);
    OrphansTruthful(versions, d, listing);
    OrphansRun(d, listing, versions[|versions| - 1]);
    RunKeeps(d, sweep, versions[|versions| - 1]);
    ReplayTruthful(versions, Run(d, sweep), listing);
    TruthfulConcat(versions, sweep, ReplayScript(Run(d, sweep), listing));
  }

  lemma StepPaysElsewhere(d: Disk, e: Disk, tx: TxId, step: Step)
    requires SameBut(d, e, tx) && d.log == e.log && StepPays(d, step) && (step.Emit? || step.id != tx)
    ensures StepPays(e, step) && SameBut(Exec(d, step), Exec(e, step), tx) && Exec(d, step).log == Exec(e, step).log
  {
  }

  /** Work in another journal directory, with no intent in it, owes nothing. */
  lemma {:induction false} PaysElsewhere(d: Disk, e: Disk, tx: TxId, script: seq<Step>, own: Option<TxId>)
    requires SameBut(d, e, tx) && d.log == e.log && Pays(d, script) && OwnSteps(script, own) && own != Some(tx)
    ensures Pays(e, script)
    decreases |script|
  {
    if script != [] {
      StepPaysElsewhere(d, e, tx, script[0]);
      PaysElsewhere(Exec(d, script[0]), Exec(e, script[0]), tx, script[1..], own);
    }
  }

  // ---- commits and their events ----

  /** Every file the commit changed has its event: its revision, its hash and its author. */
  ghost predicate Reported(log: seq<Event>, v: Version, req: Request, w: Version) {
    forall i :: 0 <= i < |req.muts| && EtagAt(v.files, req.muts[i].path) != EtagAt(w.files, req.muts[i].path) ==>
      HasEvent(log, req.muts[i], w.revision)
  }

  ghost predicate HasEvent(log: seq<Event>, m: Mutation, revision: nat) {
    exists tx :: Event(m.path, revision, HashOf(m.content), m.who, tx) in log
  }

  /** An intent on disk from which they will be reported. */
  ghost predicate Owed(it: Intent, v: Version, req: Request, w: Version) {
    && it.revision == w.revision
    && forall i :: 0 <= i < |req.muts| && EtagAt(v.files, req.muts[i].path) != EtagAt(w.files, req.muts[i].path) ==>
         Target(req.muts[i].path, HashOf(req.muts[i].content), req.muts[i].who) in it.targets
  }

  ghost predicate OwedOnDisk(d: Disk, v: Version, req: Request, w: Version) {
    exists id :: Pending(d, id) && Owed(IntentOf(d, id), v, req, w)
  }

  ghost predicate Accounted(d: Disk, v: Version, req: Request, w: Version) {
    Reported(d.log, v, req, w) || OwedOnDisk(d, v, req, w)
  }

  ghost predicate AllAccounted(s: State) {
    |s.versions| == |s.commits| + 1
    && forall n :: 0 <= n < |s.commits| ==> Accounted(s.disk, s.versions[n], s.commits[n].req, s.versions[n + 1])
  }

  /** Of the events handed over since there were `base`, none is ahead of the disk and none is untrue. */
  ghost predicate Told(versions: seq<Version>, d: Disk, base: nat) {
    forall k :: base <= k < |d.log| ==> d.log[k].revision <= d.revision && Real(versions, d.log[k])
  }

  ghost predicate Due(versions: seq<Version>, d: Disk, script: seq<Step>) {
    Pays(d, script) && Truthful(versions, script)
  }

  ghost predicate EventsInv(s: State, base: nat) {
    && AllAccounted(s) && Told(s.versions, s.disk, base)
    && (s.boot.Recovering? ==> Due(s.versions, s.disk, s.boot.script))
    && (forall pid :: pid in s.procs && s.procs[pid].pc.Publishing? ==>
          Due(s.versions, s.disk, s.procs[pid].pc.script))
  }

  lemma RealStays(versions: seq<Version>, versions': seq<Version>, e: Event)
    requires versions <= versions' && Real(versions, e)
    ensures Real(versions', e)
  {
    var n :| 0 <= n < |versions| && ShownBy(versions[n], e);
    assert versions'[n] == versions[n];
  }

  /** A step that is due keeps the log true and behind the disk. */
  lemma StepTells(versions: seq<Version>, d: Disk, script: seq<Step>, base: nat)
    requires Told(versions, d, base) && script != [] && Due(versions, d, script)
    ensures Told(versions, Exec(d, script[0]), base) && Due(versions, Exec(d, script[0]), script[1..])
  {
    forall k | 0 <= k < |script[1..]| && script[1..][k].Emit? ensures Real(versions, script[1..][k].event) {
      assert script[1..][k] == script[k + 1];
    }
  }

  lemma ReportedGrows(a: seq<Event>, b: seq<Event>, v: Version, req: Request, w: Version)
    requires Reported(a, v, req, w) && a <= b
    ensures Reported(b, v, req, w)
  {
    forall i | 0 <= i < |req.muts| && EtagAt(v.files, req.muts[i].path) != EtagAt(w.files, req.muts[i].path)
      ensures HasEvent(b, req.muts[i], w.revision)
    {
      assert HasEvent(a, req.muts[i], w.revision);
      var tx :| Event(req.muts[i].path, w.revision, HashOf(req.muts[i].content), req.muts[i].who, tx) in a;
      assert Event(req.muts[i].path, w.revision, HashOf(req.muts[i].content), req.muts[i].who, tx) in b;
    }
  }

  lemma PaidIsReported(log: seq<Event>, id: TxId, it: Intent, v: Version, req: Request, w: Version)
    requires Owed(it, v, req, w) && Attributed(log, id, it)
    ensures Reported(log, v, req, w)
  {
    forall i | 0 <= i < |req.muts| && EtagAt(v.files, req.muts[i].path) != EtagAt(w.files, req.muts[i].path)
      ensures HasEvent(log, req.muts[i], w.revision)
    {
      var t := Target(req.muts[i].path, HashOf(req.muts[i].content), req.muts[i].who);
      assert EventFor(id, it, t) in log;
    }
  }

  /** A step that pays leaves every commit accounted for. */
  lemma StepAccounts(d: Disk, step: Step, v: Version, req: Request, w: Version)
    requires StepPays(d, step) && Accounted(d, v, req, w)
    ensures Accounted(Exec(d, step), v, req, w)
  {
    var e := Exec(d, step);
    assert d.log <= e.log;
    if OwedOnDisk(d, v, req, w) {
      var id :| Pending(d, id) && Owed(IntentOf(d, id), v, req, w);
      if Pending(e, id) {
        assert IntentOf(e, id) == IntentOf(d, id);
      } else {
        PaidIsReported(d.log, id, IntentOf(d, id), v, req, w);
        ReportedGrows(d.log, e.log, v, req, w);
      }
    } else {
      ReportedGrows(d.log, e.log, v, req, w);
    }
  }

  lemma ElsewhereAccounts(d: Disk, e: Disk, tx: TxId, v: Version, req: Request, w: Version)
    requires SameBut(d, e, tx) && d.log == e.log && Accounted(d, v, req, w)
    ensures Accounted(e, v, req, w)
  {
    if !Reported(d.log, v, req, w) {
      var id :| Pending(d, id) && Owed(IntentOf(d, id), v, req, w);
      assert Pending(e, id) && IntentOf(e, id) == IntentOf(d, id);
    }
  }

  // ---- actions ----

  /** The disk is as it was, and nobody began to publish. */
  lemma StillAccounts(s: State, t: State, base: nat)
    requires EventsInv(s, base) && t.disk == s.disk && t.versions == s.versions && t.commits == s.commits
    requires t.boot.Recovering? ==> Due(t.versions, t.disk, t.boot.script)
    requires forall x :: x in t.procs && t.procs[x].pc.Publishing? ==> Due(t.versions, t.disk, t.procs[x].pc.script)
    ensures EventsInv(t, base)
  {
  }

  /** The mover, and nobody else, moved, and not into publication. */
  ghost predicate OnlyMoved(s: State, t: State, pid: Pid) {
    && t.versions == s.versions && t.commits == s.commits && t.boot == s.boot && t.disk.log == s.disk.log
    && pid in s.procs && pid in t.procs && t.procs == s.procs[pid := t.procs[pid]] && !t.procs[pid].pc.Publishing?
  }

  lemma DirAccounts(s: State, t: State, pid: Pid, tx: TxId, base: nat)
    requires EventsInv(s, base) && ProcsInv(s) && OnlyMoved(s, t, pid) && !t.boot.Recovering?
    requires SameBut(s.disk, t.disk, tx)
    requires forall x :: x in s.procs && x != pid ==> s.procs[x].tx != Some(tx)
    ensures EventsInv(t, base)
  {
    forall n | 0 <= n < |t.commits| ensures Accounted(t.disk, t.versions[n], t.commits[n].req, t.versions[n + 1]) {
      ElsewhereAccounts(s.disk, t.disk, tx, t.versions[n], t.commits[n].req, t.versions[n + 1]);
    }
    forall x | x in t.procs && t.procs[x].pc.Publishing? ensures Due(t.versions, t.disk, t.procs[x].pc.script) {
      assert x != pid && ProcInv(s, x);
      PaysElsewhere(s.disk, t.disk, tx, s.procs[x].pc.script, s.procs[x].tx);
    }
  }

  lemma StepAccountsAll(s: State, t: State, step: Step)
    requires AllAccounted(s) && StepPays(s.disk, step) && t.disk == Exec(s.disk, step)
    requires t.versions == s.versions && t.commits == s.commits
    ensures AllAccounted(t)
  {
    forall n | 0 <= n < |t.commits| ensures Accounted(t.disk, t.versions[n], t.commits[n].req, t.versions[n + 1]) {
      StepAccounts(s.disk, step, t.versions[n], t.commits[n].req, t.versions[n + 1]);
    }
  }

  /** The intent a commit records names every file it changes. */
  lemma IntentOwes(v: Version, p: Proc, w: Version)
    requires p.call.WriteMany? && |p.current| == |p.Muts()| && Current(v.files, p.Muts(), p.current)
    requires DistinctPaths(p.Muts()) && w.files == Publish(v.files, p.Muts())
    ensures Owed(Intent(w.revision, TargetsOf(Changed(p.Muts(), p.current))), v, p.call.req, w)
  {
    var muts, changed := p.Muts(), Changed(p.Muts(), p.current);
    ChangedMembers(muts, p.current);
    DistinctTargets(muts);
    forall i | 0 <= i < |muts| && EtagAt(v.files, muts[i].path) != EtagAt(w.files, muts[i].path)
      ensures Target(muts[i].path, HashOf(muts[i].content), muts[i].who) in TargetsOf(changed)
    {
      OverlayAt(v.files, TargetsOf(muts), muts[i].path);
      assert TargetsOf(muts)[i].path == muts[i].path && TargetsOf(muts)[i].hash == HashOf(muts[i].content);
      var k :| 0 <= k < |changed| && changed[k] == muts[i];
      assert TargetsOf(changed)[k] == Target(muts[i].path, HashOf(muts[i].content), muts[i].who);
    }
  }

  lemma QuietIsReported(s: State)
    requires AllAccounted(s) && Quiet(s.disk)
    ensures forall n :: 0 <= n < |s.commits| ==>
              Reported(s.disk.log, s.versions[n], s.commits[n].req, s.versions[n + 1])
  {
    forall n | 0 <= n < |s.commits| ensures Reported(s.disk.log, s.versions[n], s.commits[n].req, s.versions[n + 1]) {
      assert Accounted(s.disk, s.versions[n], s.commits[n].req, s.versions[n + 1]);
    }
  }

  lemma HistoryAccounts(s: State, t: State, c: Commit, w: Version)
    requires |s.versions| == |s.commits| + 1
    requires forall n :: 0 <= n < |s.commits| ==>
               Reported(s.disk.log, s.versions[n], s.commits[n].req, s.versions[n + 1])
    requires t.versions == s.versions + [w] && t.commits == s.commits + [c] && t.disk.log == s.disk.log
    requires OwedOnDisk(t.disk, s.versions[|s.versions| - 1], c.req, w)
    ensures AllAccounted(t)
  {
    forall n | 0 <= n < |t.commits| ensures Accounted(t.disk, t.versions[n], t.commits[n].req, t.versions[n + 1]) {
      if n < |s.commits| {
        assert Reported(s.disk.log, s.versions[n], s.commits[n].req, s.versions[n + 1]);
      }
    }
  }

  /** The intent just recorded: it owes its commit's events, and finishing it pays them. */
  lemma IntentDue(d0: Disk, p: Proc, tx: TxId, how: Manner, versions: seq<Version>)
    requires Quiet(d0) && p.call.WriteMany? && |p.current| == |p.Muts()| && p.tx == Some(tx)
    requires StagedUpTo(d0, p, |Changed(p.Muts(), p.current)|)
    requires Current(d0.files, p.Muts(), p.current) && DistinctPaths(p.Muts())
    requires versions != [] && versions[|versions| - 1] == Version(d0.revision + 1, Publish(d0.files, p.Muts()))
    ensures
      var it := Intent(d0.revision + 1, TargetsOf(Changed(p.Muts(), p.current)));
      var d := Exec(d0, PutIntent(tx, it));
      && OwedOnDisk(d, Version(d0.revision, d0.files), p.call.req, versions[|versions| - 1])
      && d.log == d0.log && d.revision == d0.revision && Due(versions, d, FinishScript(d, tx, it, how))
  {
    var it := Intent(d0.revision + 1, TargetsOf(Changed(p.Muts(), p.current)));
    var d := Exec(d0, PutIntent(tx, it));
    IntentRecorded(d0, p, tx, how);
    IntentOwes(Version(d0.revision, d0.files), p, versions[|versions| - 1]);
    assert Pending(d, tx) && IntentOf(d, tx) == it && IntentOk(d, tx);
    FinishPays(d, tx, how);
    FinishTruthful(versions, d, tx, how);
  }

  lemma IntentPays(s: State, pid: Pid, how: Manner)
    requires Here(s, pid) && s.procs[pid].pc.Entering? && Publishes(s, pid) && DistinctPaths(s.procs[pid].Muts())
    requires Version(s.disk.revision, s.disk.files) == s.Last() && Quiet(s.disk)
    ensures
      var t := Enter(s, pid, how);
      && t.versions != [] && OwedOnDisk(t.disk, s.Last(), s.procs[pid].call.req, t.Last()) && t.disk.log == s.disk.log
      && t.procs[pid].pc.Publishing? && Due(t.versions, t.disk, t.procs[pid].pc.script)
      && t.disk.revision == s.disk.revision
  {
    var p, t := s.procs[pid], Enter(s, pid, how);
    EnterCommits(s, pid, how);
    var it := Intent(s.disk.revision + 1, TargetsOf(Changed(p.Muts(), p.current)));
    assert t.disk == Exec(s.disk, PutIntent(p.tx.value, it));
    assert t.procs[pid].pc.script == FinishScript(t.disk, p.tx.value, it, how);
    IntentDue(s.disk, p, p.tx.value, how, t.versions);
  }

  lemma PublishedAccounts(s: State, pid: Pid, how: Manner, base: nat)
    requires Inv(s) && EventsInv(s, base) && CanAdvance(s, pid) && s.procs[pid].pc.Entering? && Publishes(s, pid)
    ensures EventsInv(Enter(s, pid, how), base)
  {
    var t := Enter(s, pid, how);
    UpInBody(s, pid);
    assert Here(s, pid);
    LiveFilesAreLast(s, pid);
    OnePublisher(s, pid);
    QuietIsReported(s);
    PublishedDisk(s, pid, how);
    IntentPays(s, pid, how);
    HistoryAccounts(s, t, Commit(pid, s.procs[pid].call.req), t.Last());
    forall k | base <= k < |s.disk.log| ensures Real(t.versions, s.disk.log[k]) {
      RealStays(s.versions, t.versions, s.disk.log[k]);
    }
  }

  lemma TurnedAwayAccounts(s: State, pid: Pid, how: Manner, base: nat)
    requires Inv(s) && EventsInv(s, base) && CanAdvance(s, pid) && s.procs[pid].pc.Entering? && !Publishes(s, pid)
    ensures EventsInv(Enter(s, pid, how), base)
  {
    UpInBody(s, pid);
    assert ProcOk(s.procs[pid]);
    if !s.broken {
      LiveFilesAreLast(s, pid);
    }
    TurnedAwayStays(s, pid, how);
    StillAccounts(s, Enter(s, pid, how), base);
  }

  /** A call turned away touches nothing yet; what it will sweep holds no intent. */
  lemma TurnedAwayStays(s: State, pid: Pid, how: Manner)
    requires CanAdvance(s, pid) && s.procs[pid].pc.Entering? && !Publishes(s, pid) && (s.broken || Quiet(s.disk))
    ensures
      var t := Enter(s, pid, how);
      && t.disk == s.disk && t.versions == s.versions && t.commits == s.commits && t.boot == s.boot
      && pid in t.procs && t.procs == s.procs[pid := t.procs[pid]]
      && (t.procs[pid].pc.Publishing? ==> Due(t.versions, t.disk, t.procs[pid].pc.script))
  {
    var p := s.procs[pid];
    if !s.broken && p.tx.Some? {
      SweepTruthful(s.versions, p.tx.value, how.order);
      SweepPays(s.disk, p.tx.value, how.order);
    }
  }

  lemma ProceedAccounts(s: State, pid: Pid, base: nat)
    requires Inv(s) && EventsInv(s, base) && CanAdvance(s, pid) && s.procs[pid].pc.Publishing?
    ensures EventsInv(Proceed(s, pid, s.procs[pid].pc.script, s.procs[pid].pc.result), base)
  {
    var script := s.procs[pid].pc.script;
    var t := Proceed(s, pid, script, s.procs[pid].pc.result);
    UpInBody(s, pid);
    OnePublisher(s, pid);
    if script == [] {
      StillAccounts(s, t, base);
    } else {
      StepAccountsAll(s, t, script[0]);
      StepTells(s.versions, s.disk, script, base);
    }
  }

  lemma ComparedElsewhere(s: State, pid: Pid, tx: TxId)
    requires CanAdvance(s, pid) && s.procs[pid].pc.Comparing?
    ensures OnlyMoved(s, Compare(s, pid, tx), pid)
  {
  }

  lemma CompareAccounts(s: State, pid: Pid, tx: TxId, base: nat)
    requires Inv(s) && EventsInv(s, base) && CanAdvance(s, pid) && s.procs[pid].pc.Comparing? && Fresh(s, tx)
    ensures EventsInv(Compare(s, pid, tx), base)
  {
    var t := Compare(s, pid, tx);
    UpInBody(s, pid);
    assert Here(s, pid);
    CompareMover(s, pid, tx);
    ComparedElsewhere(s, pid, tx);
    if t.disk == s.disk {
      StillAccounts(s, t, base);
    } else {
      DirAccounts(s, t, pid, tx, base);
    }
  }

  lemma StageMoves(s: State, pid: Pid, j: nat)
    requires Here(s, pid) && s.procs[pid].pc == Staging(j)
    ensures OnlyMoved(s, Stage(s, pid, j), pid)
    ensures s.procs[pid].tx.Some? && SameBut(s.disk, Stage(s, pid, j).disk, s.procs[pid].tx.value)
  {
    StageMover(s, pid, j);
  }

  lemma StageAccounts(s: State, pid: Pid, j: nat, base: nat)
    requires Inv(s) && EventsInv(s, base) && CanAdvance(s, pid) && s.procs[pid].pc == Staging(j)
    ensures EventsInv(Stage(s, pid, j), base)
  {
    UpInBody(s, pid);
    assert Here(s, pid);
    StageMoves(s, pid, j);
    DirAccounts(s, Stage(s, pid, j), pid, s.procs[pid].tx.value, base);
  }

  lemma ThrowMoves(s: State, pid: Pid, harm: bool)
    requires CanFail(s, pid) && s.versions != [] && ProcInv(s, pid) && ProcOk(s.procs[pid])
    ensures OnlyMoved(s, Thrown(s, pid, harm), pid)
    ensures Thrown(s, pid, harm).disk == s.disk
            || (s.procs[pid].tx.Some? && SameBut(s.disk, Thrown(s, pid, harm).disk, s.procs[pid].tx.value))
  {
  }

  lemma ThrownAccounts(s: State, pid: Pid, harm: bool, base: nat)
    requires Inv(s) && EventsInv(s, base) && CanFail(s, pid)
    ensures EventsInv(Thrown(s, pid, harm), base)
  {
    var t := Thrown(s, pid, harm);
    UpInBody(s, pid);
    assert ProcInv(s, pid) && ProcOk(s.procs[pid]);
    ThrowMoves(s, pid, harm);
    if t.disk == s.disk {
      StillDue(s, t, pid);
      StillAccounts(s, t, base);
    } else {
      DirAccounts(s, t, pid, s.procs[pid].tx.value, base);
    }
  }

  lemma StillDue(s: State, t: State, pid: Pid)
    requires OnlyMoved(s, t, pid) && t.disk == s.disk && !t.boot.Recovering?
    requires forall x :: x in s.procs && s.procs[x].pc.Publishing? ==> Due(s.versions, s.disk, s.procs[x].pc.script)
    ensures forall x :: x in t.procs && t.procs[x].pc.Publishing? ==> Due(t.versions, t.disk, t.procs[x].pc.script)
  {
  }

  lemma ThrowAccounts(s: State, pid: Pid, harm: bool, base: nat)
    requires Inv(s) && EventsInv(s, base) && CanFail(s, pid)
    ensures EventsInv(Throw(s, pid, harm), base)
  {
    ThrownAccounts(s, pid, harm, base);
    if s.procs[pid].pc.Publishing? {
      UpInBody(s, pid);
      OnePublisher(s, pid);
      CleanUpAccounts(Thrown(s, pid, harm), s.procs[pid].pc.script, harm, base);
    }
  }

  /** Nothing owed depends on the temporaries. */
  lemma CleanUpAccounts(s: State, script: seq<Step>, harm: bool, base: nat)
    requires EventsInv(s, base) && !s.boot.Recovering?
    requires forall x :: x in s.procs ==> !s.procs[x].pc.Publishing?
    ensures EventsInv(CleanUp(s, script, harm), base)
  {
    var t := CleanUp(s, script, harm);
    assert t.disk == s.disk.(strays := t.disk.strays);
    forall n | 0 <= n < |t.commits| ensures Accounted(t.disk, t.versions[n], t.commits[n].req, t.versions[n + 1]) {
      BesideAccounts(s.disk, t.disk.strays, t.versions[n], t.commits[n].req, t.versions[n + 1]);
    }
  }

  lemma BesideAccounts(d: Disk, strays: Files, v: Version, req: Request, w: Version)
    requires Accounted(d, v, req, w)
    ensures Accounted(d.(strays := strays), v, req, w)
  {
    var e := d.(strays := strays);
    if !Reported(d.log, v, req, w) {
      var id :| Pending(d, id) && Owed(IntentOf(d, id), v, req, w);
      assert Pending(e, id) && IntentOf(e, id) == IntentOf(d, id);
    }
  }

  lemma LocalAccounts(s: State, pid: Pid, tx: TxId, how: Manner, base: nat)
    requires EventsInv(s, base) && CanAdvance(s, pid)
    requires
      var pc := s.procs[pid].pc;
      pc.Booting? || pc.Acquiring? || pc.Checking? || pc.Reading? || pc.Refusing? || pc.Looking? || pc.Releasing?
    ensures EventsInv(Go(s, pid, tx, how), base)
  {
    StillAccounts(s, Go(s, pid, tx, how), base);
  }

  lemma AdvanceAccounts(s: State, pid: Pid, tx: TxId, how: Manner, base: nat)
    requires Inv(s) && EventsInv(s, base) && Enabled(s, Advance(pid, tx, how))
    ensures EventsInv(Go(s, pid, tx, how), base)
  {
    match s.procs[pid].pc
    case Comparing => CompareAccounts(s, pid, tx, base);
    case Staging(j) => StageAccounts(s, pid, j, base);
    case Entering =>
      if Publishes(s, pid) {
        PublishedAccounts(s, pid, how, base);
      } else {
        TurnedAwayAccounts(s, pid, how, base);
      }
    case Publishing(_, _) => ProceedAccounts(s, pid, base);
    case _ => LocalAccounts(s, pid, tx, how, base);
  }

  lemma RestartAccounts(s: State, listing: seq<Entry>, base: nat)
    requires DiskInv(s) && EventsInv(s, base) && Enabled(s, Restart(listing))
    ensures EventsInv(Do(s, Restart(listing)), base)
  {
    RecoverPays(s.disk, listing, s.Last());
    RecoverTruthful(s.versions, s.disk, listing);
    assert forall x :: x in s.procs ==> !s.procs[x].pc.Publishing?;
    StillAccounts(s, Do(s, Restart(listing)), base);
  }

  lemma RecoverAccounts(s: State, base: nat)
    requires DiskInv(s) && EventsInv(s, base) && s.boot.Recovering?
    ensures EventsInv(Do(s, Recover), base)
  {
    var t := Do(s, Recover);
    assert forall x :: x in s.procs ==> !s.procs[x].pc.Publishing?;
    if s.boot.script == [] {
      StillAccounts(s, t, base);
    } else {
      StepAccountsAll(s, t, s.boot.script[0]);
      StepTells(s.versions, s.disk, s.boot.script, base);
    }
  }

  lemma ActionAccounts(s: State, a: Action, base: nat)
    requires Inv(s) && EventsInv(s, base) && Enabled(s, a)
    ensures EventsInv(Do(s, a), base)
  {
    match a
    case Arrive(_, _, _) => StillAccounts(s, Do(s, a), base);
    case Advance(pid, tx, how) => AdvanceAccounts(s, pid, tx, how, base);
    case Fail(pid, harm) => ThrowAccounts(s, pid, harm, base);
    case Crash => StillAccounts(s, Do(s, a), base);
    case Restart(listing) => RestartAccounts(s, listing, base);
    case Recover => RecoverAccounts(s, base);
    case RecoverFails(harm) => GaveUpAccounts(s, harm, base);
  }

  lemma GaveUpAccounts(s: State, harm: bool, base: nat)
    requires DiskInv(s) && EventsInv(s, base) && s.boot.Recovering?
    ensures EventsInv(Do(s, RecoverFails(harm)), base)
  {
    var u := s.(boot := Wedged);
    assert forall x :: x in s.procs ==> !s.procs[x].pc.Publishing?;
    StillAccounts(s, u, base);
    CleanUpAccounts(u, s.boot.script, harm, base);
  }

  lemma {:induction false} RunAccounts(s: State, actions: seq<Action>, base: nat)
    requires Inv(s) && EventsInv(s, base) && Legal(s, actions)
    ensures EventsInv(After(s, actions), base)
    decreases |actions|
  {
    if actions != [] {
      ActionKeeps(s, actions[0]);
      ActionAccounts(s, actions[0], base);
      RunAccounts(Do(s, actions[0]), actions[1..], base);
    }
  }

  /**
   * Attribution is at least once. In every reachable state, each commit has had its events handed
   * over, or its intent is still on disk to hand them over from; so once the journal holds no intent,
   * as after any recovery that completes, every change ever committed is in the log under its author.
   */
  lemma EveryCommitIsAttributed(s: State, actions: seq<Action>)
    requires Init(s) && Legal(s, actions)
    ensures
      var t := After(s, actions);
      && AllAccounted(t)
      && (Quiet(t.disk) ==> forall n :: 0 <= n < |t.commits| ==>
            Reported(t.disk.log, t.versions[n], t.commits[n].req, t.versions[n + 1]))
  {
    InitHolds(s);
    RunAccounts(s, actions, |s.disk.log|);
    var t := After(s, actions);
    if Quiet(t.disk) {
      QuietIsReported(t);
    }
  }

  /**
   * No event runs ahead of its change or misstates it: whatever is handed to `onWrite` in a run is of
   * a revision `.revision` has reached, and a committed version of that revision holds just that.
   */
  lemma EventsFollowTheirChanges(s: State, actions: seq<Action>)
    requires Init(s) && Legal(s, actions)
    ensures Told(After(s, actions).versions, After(s, actions).disk, |s.disk.log|)
  {
    InitHolds(s);
    RunAccounts(s, actions, |s.disk.log|);
  }
}
