/** `DBEngine` with the database to itself: what one call does, start to finish. */
module DatabaseEngine {
  import opened Wrappers
  import opened Documents
  import opened Storage
  import opened Recovery
  import opened Requests
  import opened Journal

  datatype Place = AtFile(path: Path) | AtDirectory(dir: Dir)
  datatype Answer =
    | AnswerInvalid
    | AnswerConflict(at: Place, revision: nat)
    | AnswerUnchanged(revision: nat, etags: map<Path, Option<Etag>>)
    | AnswerWritten(revision: nat, etags: map<Path, Option<Etag>>)
    | Thrown

  /** What the caller learns about its files: the ETag of each content asked for. */
  function EtagsOf(muts: seq<Mutation>): map<Path, Option<Etag>> {
    if muts == [] then map[]
    else EtagsOf(muts[..|muts| - 1])[muts[|muts| - 1].path := HashOf(muts[|muts| - 1].content)]
  }

  lemma {:induction false} EtagAsked(muts: seq<Mutation>, i: nat)
    requires DistinctPaths(muts) && i < |muts|
    ensures muts[i].path in EtagsOf(muts) && EtagsOf(muts)[muts[i].path] == HashOf(muts[i].content)
  {
    var n := |muts| - 1;
    if i < n {
      assert muts[..n][i] == muts[i];
      assert muts[i].path.Render() != muts[n].path.Render();
      EtagAsked(muts[..n], i);
    }
  }

  lemma {:induction false} OnlyAsked(muts: seq<Mutation>, p: Path)
    requires p in EtagsOf(muts)
    ensures exists i :: 0 <= i < |muts| && muts[i].path == p
  {
    var n := |muts| - 1;
    if muts[n].path != p {
      OnlyAsked(muts[..n], p);
      var i :| 0 <= i < n && muts[..n][i].path == p;
      assert muts[i].path == p;
    }
  }

  /** What an answer tells of a file is what the database asked for holds there. */
  lemma EtagsAreThose(files: Files, muts: seq<Mutation>)
    requires DistinctPaths(muts)
    ensures Answers(Publish(files, muts), muts, EtagsOf(muts))
  {
    var etags := EtagsOf(muts);
    DistinctTargets(muts);
    forall i | 0 <= i < |muts|
      ensures muts[i].path in etags && etags[muts[i].path] == EtagAt(Publish(files, muts), muts[i].path)
    {
      EtagAsked(muts, i);
      OverlayAt(files, TargetsOf(muts), muts[i].path);
      assert TargetsOf(muts)[i].path == muts[i].path;
    }
    forall p | p in etags ensures exists i :: 0 <= i < |muts| && muts[i].path == p {
      OnlyAsked(muts, p);
    }
  }

  /** The ETags an answer carries are those of the files as the call leaves them, one for each it named. */
  ghost predicate Answers(files: Files, muts: seq<Mutation>, etags: map<Path, Option<Etag>>) {
    && (forall p :: p in etags <==> exists i :: 0 <= i < |muts| && muts[i].path == p)
    && (forall p :: p in etags ==> etags[p] == EtagAt(files, p))
  }

  /** A next write that expects the ETags an answer carried finds its expectations met, while the files stay. */
  lemma NextWriteIsNotRefused(files: Files, muts: seq<Mutation>, etags: map<Path, Option<Etag>>, next: Request)
    requires Answers(files, muts, etags)
    requires forall m :: m in next.muts ==> m.path in etags && m.expected == Exactly(etags[m.path])
    ensures Permitted(files, next) <==> ChecksHold(files, next)
  {
    forall i | 0 <= i < |next.muts| ensures ExpectationHolds(EtagAt(files, next.muts[i].path), next.muts[i]) {
      assert next.muts[i] in next.muts;
    }
  }

  /** A finish that would not be refused. */
  ghost predicate Finishable(d: Disk, id: TxId, it: Intent) {
    it.revision <= d.revision + 1 && d.revision <= it.revision && PayloadsPresent(d, id, it.targets)
  }

  lemma {:induction false} EventsTail(id: TxId, it: Intent, i: nat)
    requires i < |it.targets|
    ensures Events(id, it, i)[0] == EventFor(id, it, it.targets[i]) && Events(id, it, i)[1..] == Events(id, it, i + 1)
  {
  }

  lemma {:induction false} NoneIntended(d: Disk, listing: seq<Entry>)
    requires forall k :: 0 <= k < |listing| ==> !Pending(d, listing[k].id)
    ensures Intended(d, listing) == []
  {
    if listing != [] {
      NoneIntended(d, listing[1..]);
    }
  }

  /** A recoverable disk has at most one transaction to replay, and replaying is finishing it. */
  lemma {:induction false} IntendedOnce(d: Disk, listing: seq<Entry>)
    requires Recoverable(d) && forall i, j :: 0 <= i < j < |listing| ==> listing[i].id != listing[j].id
    ensures |Intended(d, listing)| <= 1
    ensures Intended(d, listing) == [] ==> ReplayScript(d, listing) == []
    ensures forall e :: Intended(d, listing) == [e] ==>
              Pending(d, e.id) && ReplayScript(d, listing) == FinishScript(d, e.id, IntentOf(d, e.id), e.how)
  {
    if listing != [] {
      var e, rest := listing[0], listing[1..];
      if Pending(d, e.id) {
        forall k | 0 <= k < |rest| ensures !Pending(d, rest[k].id) {
          assert rest[k] == listing[k + 1];
        }
        NoneIntended(d, rest);
        FinishRuns(d, e.id, e.how);
        var r := Run(d, FinishScript(d, e.id, IntentOf(d, e.id), e.how));
        forall x ensures !Pending(r, x) {
          assert Pending(d, x) ==> x == e.id;
        }
        NothingToReplay(r, rest);
      } else {
        IntendedOnce(d, rest);
        assert ReplayScript(d, listing) == [] + ReplayScript(Run(d, []), rest);
        assert Intended(d, listing) == [] + Intended(d, rest);
      }
    }
  }

  /** What `finish` does once every target is in place. */
  function ConcludeScript(d: Disk, id: TxId, it: Intent, how: Manner): seq<Step> {
    RevisionScript(d, id, it, how.temp) + EmitScript(Events(id, it, 0)) + SweepScript(id, how.order)
  }

  lemma FinishParts(d: Disk, id: TxId, it: Intent, how: Manner)
    ensures
      var apply := ApplyScript(d, id, it.targets, 0);
      var d1 := Run(d, apply);
      && FinishScript(d, id, it, how) == apply + ConcludeScript(d1, id, it, how) && d1.strays == d.strays
      && Run(d, FinishScript(d, id, it, how)) == Run(d1, ConcludeScript(d1, id, it, how))
  {
    var apply := ApplyScript(d, id, it.targets, 0);
    ApplyIsPlain(d, id, it.targets, 0);
    PlainWrites(d, apply);
    var rest := ConcludeScript(Run(d, apply), id, it, how);
    assert FinishScript(d, id, it, how) == apply + rest;
    RunConcat(d, apply, rest);
  }

  /** Where concluding leads, and by which steps. */
  lemma ConcludeRuns(d: Disk, id: TxId, it: Intent, how: Manner, trace: seq<Step>)
    requires how.temp.Path() !in d.strays
    ensures trace + RevisionScript(d, id, it, how.temp) + EmitScript(Events(id, it, 0)) + SweepScript(id, how.order)
            == trace + ConcludeScript(d, id, it, how)
    ensures Run(d, ConcludeScript(d, id, it, how))
            == d.(revision := it.revision, log := d.log + Events(id, it, 0), dirs := d.dirs - {id})
  {
    var advance, emit := RevisionScript(d, id, it, how.temp), EmitScript(Events(id, it, 0));
    var sweep := SweepScript(id, how.order);
    var d2 := d.(revision := it.revision);
    RevisionWrites(d, id, it, how.temp);
    EmitRuns(d2, Events(id, it, 0));
    SweepRuns(d2.(log := d.log + Events(id, it, 0)), id, how.order);
    RunConcat(d, advance, emit);
    RunConcat(d, advance + emit, sweep);
    Regroup(trace, advance, emit, sweep);
  }

  lemma Regroup<T>(a: seq<T>, b: seq<T>, c: seq<T>, d: seq<T>)
    ensures a + b + c + d == a + (b + c + d)
    ensures a + (b + c) == a + b + c
  {
  }

  class DBEngine {
    const fs: FileWriter
    const journal: TransactionJournal
    var ready: Option<bool>
    var recoveryRequired: bool

    constructor (fs: FileWriter)
      ensures this.fs == fs && journal.fs == fs && ready == None && !recoveryRequired
      ensures fresh(journal)
    {
      this.fs := fs;
      var j := new TransactionJournal(fs);
      journal := j;
      ready, recoveryRequired := None, false;
    }

    /** Apply, advance the revision unless it already has, report every file, drop the journal. */
    method Finish(id: TxId, it: Intent, how: Manner) returns (ok: bool)
      requires journal.fs == fs && Distinct(it.targets) && how.temp.Path() !in fs.strays
      modifies fs
      ensures ok <==> Finishable(old(fs.State()), id, it)
      ensures !ok ==> fs.State() == old(fs.State()) && fs.trace == old(fs.trace)
      ensures ok ==>
                var script := FinishScript(old(fs.State()), id, it, how);
                fs.trace == old(fs.trace) + script && fs.State() == Run(old(fs.State()), script)
    {
      var current := fs.revision;
      if current > it.revision || current + 1 < it.revision {
        return false;
      }
      FinishParts(fs.State(), id, it, how);
      ok := journal.Apply(id, it);
      if ok {
        Conclude(id, it, how);
      }
    }

    method Conclude(id: TxId, it: Intent, how: Manner)
      requires journal.fs == fs && how.temp.Path() !in fs.strays
      modifies fs
      ensures fs.trace == old(fs.trace) + ConcludeScript(old(fs.State()), id, it, how)
      ensures fs.State() == Run(old(fs.State()), ConcludeScript(old(fs.State()), id, it, how))
    {
      ConcludeRuns(fs.State(), id, it, how, fs.trace);
      Advance(id, it, how.temp);
      Report(id, it);
      journal.Complete(id, how.order);
    }

    method Advance(id: TxId, it: Intent, temp: Temp)
      requires temp.Path() !in fs.strays
      modifies fs
      ensures fs.trace == old(fs.trace) + RevisionScript(old(fs.State()), id, it, temp)
      ensures fs.State() == old(fs.State()).(revision := it.revision)
    {
      if fs.revision != it.revision {
        fs.WriteRevision(id, it.revision, temp);
      }
    }

    /** The `onWrite` loop. */
    method Report(id: TxId, it: Intent)
      modifies fs
      ensures fs.trace == old(fs.trace) + EmitScript(Events(id, it, 0))
      ensures fs.State() == old(fs.State()).(log := old(fs.log) + Events(id, it, 0))
    {
      for i := 0 to |it.targets|
        invariant fs.State() == old(fs.State()).(log := fs.log)
        invariant fs.log + Events(id, it, i) == old(fs.log) + Events(id, it, 0)
        invariant fs.trace + EmitScript(Events(id, it, i)) == old(fs.trace) + EmitScript(Events(id, it, 0))
      {
        EventsTail(id, it, i);
        ghost var log, trace := fs.log, fs.trace;
        var e := EventFor(id, it, it.targets[i]);
        fs.Append(e);
        assert log + ([e] + Events(id, it, i + 1)) == fs.log + Events(id, it, i + 1);
        assert trace + ([Emit(e)] + EmitScript(Events(id, it, i + 1))) == fs.trace + EmitScript(Events(id, it, i + 1));
      }
      assert fs.log + [] == fs.log && fs.trace + [] == fs.trace;
    }

    /** Sweep the orphans, then finish what was recorded. */
    method Replay(listing: seq<Entry>) returns (fine: bool)
      requires journal.fs == fs && Recoverable(fs.State()) && FreshTemps(listing, fs.State())
      requires forall i, j :: 0 <= i < j < |listing| ==> listing[i].id != listing[j].id
      modifies fs
      ensures fine
      ensures fs.trace == old(fs.trace) + RecoverScript(old(fs.State()), listing)
      ensures fs.State() == Run(old(fs.State()), RecoverScript(old(fs.State()), listing))
    {
      ghost var d0, t0 := fs.State(), fs.trace;
      SweptIsRecoverable(d0, listing);
      RecoverParts(d0, listing, t0);
      ghost var sweep := OrphanScript(d0, listing);
      ghost var d1 := Run(d0, sweep);
      OrphansArePlain(d0, listing);
      PlainWrites(d0, sweep);
      var found := journal.PendingIntents(listing);
      assert fs.State() == d1 && fs.trace == t0 + sweep;
      FoundOnce(d0, d1, listing, found);
      fine := FinishFound(found, listing);
    }

    method FinishFound(found: seq<Entry>, ghost listing: seq<Entry>) returns (fine: bool)
      requires journal.fs == fs
      requires found == [] ==> ReplayScript(fs.State(), listing) == []
      requires found != [] ==> Replays(fs.State(), found[0], listing) && found[0].how.temp.Path() !in fs.strays
      modifies fs
      ensures fine
      ensures fs.trace == old(fs.trace) + ReplayScript(old(fs.State()), listing)
      ensures fs.State() == Run(old(fs.State()), ReplayScript(old(fs.State()), listing))
    {
      fine := true;
      if |found| > 0 {
        var id := found[0].id;
        fine := Finish(id, fs.dirs[id].intent.value, found[0].how);
      }
    }

    /**
     * Boot-time recovery, done once. A disk left by any earlier run is brought, by the steps of
     * `RecoverScript`, to exactly the database it stands for, with an empty journal.
     */
    method Recover(listing: seq<Entry>) returns (ok: bool)
      requires journal.fs == fs && Recoverable(fs.State())
      requires Lists(listing, fs.State()) && FreshTemps(listing, fs.State())
      requires forall i, j :: 0 <= i < j < |listing| ==> listing[i].id != listing[j].id
      modifies this, fs
      ensures recoveryRequired == old(recoveryRequired)
      ensures old(ready).Some? ==>
                ready == old(ready) && fs.State() == old(fs.State()) && fs.trace == old(fs.trace)
      ensures old(ready) == None ==>
                && ready == Some(true)
                && fs.trace == old(fs.trace) + RecoverScript(old(fs.State()), listing)
                && fs.State() == Run(old(fs.State()), RecoverScript(old(fs.State()), listing))
      ensures ok <==> ready == Some(true) && !recoveryRequired
    {
      if ready.None? {
        var fine := Replay(listing);
        ready := Some(fine);
      }
      ok := ready.value && !recoveryRequired;
    }

    /**
     * `snapshot`: the revision and every file but `.revision` and `.journal`. With no temporary in the
     * tree, and only then, that is the database the disk stands for.
     */
    method Snapshot() returns (v: Option<Version>)
      ensures recoveryRequired ==> v == None
      ensures !recoveryRequired ==> v.Some? && v.value.revision == fs.revision
      ensures !recoveryRequired && Quiet(fs.State()) && NoDots(fs.files) && OnlyDots(fs.strays) ==>
                && Denotes(fs.State(), v.value.(files := Bare(v.value.files)))
                && (Denotes(fs.State(), v.value) <==> fs.strays == map[])
    {
      if recoveryRequired {
        return None;
      }
      if NoDots(fs.files) && OnlyDots(fs.strays) {
        BesideSplits(fs.files, fs.strays);
      }
      return Some(Version(fs.revision, fs.files + fs.strays));
    }

    method Validate(req: Request) returns (ok: bool)
      ensures ok <==> Valid(req)
      ensures ok <==> forall i :: 0 <= i < |req.muts| && req.muts[i].content.Some? ==> req.muts[i].valid
    {
      for i := 0 to |req.muts|
        invariant forall k :: 0 <= k < i ==> req.muts[k].content.Some? ==> req.muts[k].valid
      {
        if req.muts[i].content.Some? && !req.muts[i].valid {
          return false;
        }
      }
      return true;
    }

    method ReadEtags(muts: seq<Mutation>) returns (current: seq<Option<Etag>>)
      ensures |current| == |muts| && Current(fs.files, muts, current)
    {
      current := [];
      for i := 0 to |muts|
        invariant |current| == i && Current(fs.files, muts, current)
      {
        current := current + [HashOf(fs.ReadOptional(muts[i].path))];
      }
    }

    /** The first mutation whose expected ETag is not the current one. */
    method FirstMismatch(muts: seq<Mutation>, current: seq<Option<Etag>>) returns (at: Option<nat>)
      requires |current| == |muts|
      ensures at.None? <==> forall i :: 0 <= i < |muts| ==> ExpectationHolds(current[i], muts[i])
      ensures at.Some? ==> at.value < |muts| && !ExpectationHolds(current[at.value], muts[at.value])
    {
      for i := 0 to |muts|
        invariant forall k :: 0 <= k < i ==> ExpectationHolds(current[k], muts[k])
      {
        if !ExpectationHolds(current[i], muts[i]) {
          return Some(i);
        }
      }
      return None;
    }

    /** The checks made again under the publication lock: directories, then files read. */
    method FirstStale(req: Request) returns (at: Option<Place>)
      ensures at.None? <==> ChecksHold(fs.files, req)
      ensures at.Some? ==> Broken(fs.files, req, at.value)
    {
      for i := 0 to |req.listings|
        invariant forall k :: 0 <= k < i ==> ListingHolds(fs.files, req.listings[k])
      {
        if !ListingHolds(fs.files, req.listings[i]) {
          return Some(AtDirectory(req.listings[i].dir));
        }
      }
      for i := 0 to |req.checks|
        invariant forall k :: 0 <= k < i ==> ReadHolds(fs.files, req.checks[k])
      {
        if !ReadHolds(fs.files, req.checks[i]) {
          return Some(AtFile(req.checks[i].path));
        }
      }
      return None;
    }

    /** Record the intent and finish it. */
    method PublishPrepared(id: TxId, changed: seq<Mutation>, how: Manner) returns (ok: bool)
      requires journal.fs == fs && id in fs.dirs && Quiet(fs.State()) && Distinct(TargetsOf(changed))
      requires how.temp.Path() !in fs.strays
      requires AllAvailable(fs.State(), id, TargetsOf(changed))
      modifies fs
      ensures ok
      ensures
        var it := Intent(old(fs.revision) + 1, TargetsOf(changed));
        fs.State() == Disk(Publish(old(fs.files), changed), old(fs.revision) + 1, old(fs.dirs) - {id},
                           old(fs.log) + Events(id, it, 0), old(fs.strays))
    {
      var it := Intent(fs.revision + 1, TargetsOf(changed));
      PutIntentCommits(fs.State(), id, it);
      fs.WriteIntent(id, it);
      FinishRuns(fs.State(), id, how);
      assert IntentOk(fs.State(), id);
      ok := Finish(id, it, how);
      assert fs.dirs == old(fs.dirs) - {id};
    }

    /**
     * One call alone. It is answered from the preconditions alone: `AnswerConflict` only if one is
     * false, and otherwise the database becomes exactly what was asked for, its revision one higher
     * unless nothing changed, with one event for each changed file.
     */
    method WriteMany(req: Request, id: TxId, how: Manner) returns (a: Answer)
      requires journal.fs == fs && DistinctPaths(req.muts) && id !in fs.dirs && how.temp.Path() !in fs.strays
      requires !recoveryRequired ==> Quiet(fs.State())
      modifies this, fs
      ensures !Valid(req) ==> a == AnswerInvalid
      ensures Valid(req) && old(recoveryRequired) ==> a == Thrown
      ensures Valid(req) && !old(recoveryRequired) ==> Deserved(old(fs.files), old(fs.revision), req, a)
      ensures a.AnswerWritten? || a.AnswerUnchanged? ==> Answers(fs.files, req.muts, a.etags)
      ensures a.AnswerWritten? ==>
                && fs.State() == Disk(Publish(old(fs.files), req.muts), old(fs.revision) + 1, old(fs.dirs), fs.log,
                                      old(fs.strays))
                && old(fs.log) <= fs.log && AllReported(req.muts, old(fs.files), fs.revision, id, fs.log)
      ensures !a.AnswerWritten? ==> fs.State() == old(fs.State()).(dirs := fs.dirs)
      ensures a != Thrown ==> fs.dirs == old(fs.dirs)
      ensures recoveryRequired == old(recoveryRequired)
    {
      var valid := Validate(req);
      if !valid {
        return AnswerInvalid;
      }
      if recoveryRequired {
        return Thrown;
      }
      var current := ReadEtags(req.muts);
      var mismatch := FirstMismatch(req.muts, current);
      if mismatch.Some? {
        assert !ExpectationHolds(EtagAt(fs.files, req.muts[mismatch.value].path), req.muts[mismatch.value]);
        return AnswerConflict(AtFile(req.muts[mismatch.value].path), fs.revision);
      }
      a := StageAndPublish(req, current, id, how);
    }

    /** What `writeMany` does once the ETags are as expected: payloads staged, then published. */
    method StageAndPublish(req: Request, current: seq<Option<Etag>>, id: TxId, how: Manner) returns (a: Answer)
      requires journal.fs == fs && DistinctPaths(req.muts) && id !in fs.dirs && how.temp.Path() !in fs.strays
      requires !recoveryRequired && Quiet(fs.State())
      requires |current| == |req.muts| && Current(fs.files, req.muts, current)
      requires forall i :: 0 <= i < |req.muts| ==> ExpectationHolds(current[i], req.muts[i])
      modifies fs
      ensures Deserved(old(fs.files), old(fs.revision), req, a)
      ensures a.AnswerWritten? || a.AnswerUnchanged? ==> Answers(fs.files, req.muts, a.etags)
      ensures a.AnswerWritten? ==>
                && fs.State() == Disk(Publish(old(fs.files), req.muts), old(fs.revision) + 1, old(fs.dirs), fs.log,
                                      old(fs.strays))
                && old(fs.log) <= fs.log && AllReported(req.muts, old(fs.files), fs.revision, id, fs.log)
      ensures !a.AnswerWritten? ==> fs.State() == old(fs.State()).(dirs := fs.dirs)
      ensures a != Thrown ==> fs.dirs == old(fs.dirs)
    {
      if Changed(req.muts, current) != [] {
        StagePayloads(Changed(req.muts, current), id);
      }
      a := PublishIfFresh(req, current, id, how);
      DeservedAnswers(old(fs.files), old(fs.revision), req, a, fs.files);
    }

    /** The payloads staged under a new directory, which holds no intent. */
    method StagePayloads(changed: seq<Mutation>, id: TxId)
      requires journal.fs == fs && id !in fs.dirs && Quiet(fs.State())
      modifies fs
      ensures id in fs.dirs && AllAvailable(fs.State(), id, TargetsOf(changed)) && Quiet(fs.State())
      ensures fs.State() == old(fs.State()).(dirs := fs.dirs) && fs.dirs - {id} == old(fs.dirs)
    {
      journal.Prepare(id, changed);
      PreparedIsAvailable(fs.State(), id, changed);
      forall x ensures !Pending(fs.State(), x) {
        assert !Pending(old(fs.State()), x);
      }
    }

    /** What `writeMany` does under the publication lock, its payloads staged. */
    method PublishIfFresh(req: Request, current: seq<Option<Etag>>, id: TxId, how: Manner) returns (a: Answer)
      requires journal.fs == fs && DistinctPaths(req.muts) && Quiet(fs.State()) && !recoveryRequired
      requires how.temp.Path() !in fs.strays
      requires |current| == |req.muts| && Current(fs.files, req.muts, current)
      requires forall i :: 0 <= i < |req.muts| ==> ExpectationHolds(current[i], req.muts[i])
      requires
        var changed := Changed(req.muts, current);
        changed != [] ==> id in fs.dirs && AllAvailable(fs.State(), id, TargetsOf(changed))
      modifies fs
      ensures Deserved(old(fs.files), old(fs.revision), req, a)
      ensures a.AnswerWritten? ==>
                && fs.State() == Disk(Publish(old(fs.files), req.muts), old(fs.revision) + 1, old(fs.dirs) - {id},
                                      fs.log, old(fs.strays))
                && old(fs.log) <= fs.log && AllReported(req.muts, old(fs.files), fs.revision, id, fs.log)
      ensures !a.AnswerWritten? ==> fs.State() == old(fs.State()).(dirs := fs.dirs)
      ensures a != Thrown && Changed(req.muts, current) != [] ==> fs.dirs == old(fs.dirs) - {id}
      ensures Changed(req.muts, current) == [] ==> fs.dirs == old(fs.dirs)
    {
      var changed := Changed(req.muts, current);
      var stale := FirstStale(req);
      PreconditionsDecide(fs.files, req, current);
      if stale.Some? {
        a := AnswerConflict(stale.value, fs.revision);
        if changed != [] {
          journal.Complete(id, how.order);
        }
      } else if changed == [] {
        a := AnswerUnchanged(fs.revision, EtagsOf(req.muts));
      } else if fs.revision + 1 > MAX_SAFE_INTEGER {
        a := Thrown;
      } else {
        PublishChanges(req, current, id, how);
        a := AnswerWritten(fs.revision, EtagsOf(req.muts));
      }
    }

    /** What changed is published, which publishes everything, and reported. */
    method PublishChanges(req: Request, current: seq<Option<Etag>>, id: TxId, how: Manner)
      requires journal.fs == fs && DistinctPaths(req.muts) && Quiet(fs.State()) && how.temp.Path() !in fs.strays
      requires |current| == |req.muts| && Current(fs.files, req.muts, current)
      requires id in fs.dirs && AllAvailable(fs.State(), id, TargetsOf(Changed(req.muts, current)))
      modifies fs
      ensures fs.State() == Disk(Publish(old(fs.files), req.muts), old(fs.revision) + 1, old(fs.dirs) - {id},
                                      fs.log, old(fs.strays))
      ensures old(fs.log) <= fs.log && AllReported(req.muts, old(fs.files), fs.revision, id, fs.log)
    {
      PublishedMeans(fs.files, req.muts, current, id, fs.revision + 1, fs.log);
      var published := PublishPrepared(id, Changed(req.muts, current), how);
    }
  }

  lemma PublishedMeans(files: Files, muts: seq<Mutation>, current: seq<Option<Etag>>, id: TxId, revision: nat, log: seq<Event>)
    requires |current| == |muts| && Current(files, muts, current) && DistinctPaths(muts)
    ensures
      var changed := Changed(muts, current);
      var after := log + Events(id, Intent(revision, TargetsOf(changed)), 0);
      && Distinct(TargetsOf(changed)) && Publish(files, changed) == Publish(files, muts)
      && AllReported(muts, files, revision, id, after) && log <= after
  {
    PublishChanged(files, muts, current);
    ReportedChanges(muts, current, files, id, revision, log);
  }

  lemma PreconditionsDecide(files: Files, req: Request, current: seq<Option<Etag>>)
    requires |current| == |req.muts| && Current(files, req.muts, current) && DistinctPaths(req.muts)
    requires forall i :: 0 <= i < |req.muts| ==> ExpectationHolds(current[i], req.muts[i])
    ensures Permitted(files, req) <==> ChecksHold(files, req)
    ensures Changed(req.muts, current) == [] <==> Publish(files, req.muts) == files
  {
    ChecksDecide(files, req, current);
    UnchangedIsIdentity(files, req.muts, current);
  }

  lemma ChecksDecide(files: Files, req: Request, current: seq<Option<Etag>>)
    requires |current| == |req.muts| && Current(files, req.muts, current)
    requires forall i :: 0 <= i < |req.muts| ==> ExpectationHolds(current[i], req.muts[i])
    ensures Permitted(files, req) <==> ChecksHold(files, req)
  {
  }

  ghost predicate AllAvailable(d: Disk, id: TxId, ts: seq<Target>)
    requires id in d.dirs
  {
    forall i :: 0 <= i < |ts| ==> Available(d.files, d.dirs[id], i, ts[i])
  }

  lemma PreparedIsAvailable(d: Disk, id: TxId, muts: seq<Mutation>)
    requires id in d.dirs
    requires forall i :: i in d.dirs[id].stages <==> 0 <= i < |muts| && muts[i].content.Some?
    requires forall i :: i in d.dirs[id].stages ==> i < |muts| && muts[i].content == Some(d.dirs[id].stages[i])
    ensures AllAvailable(d, id, TargetsOf(muts))
  {
  }

  /** The one right answer to a valid request, given the database it found. */
  ghost predicate Deserved(files: Files, revision: nat, req: Request, a: Answer) {
    match a
    case AnswerInvalid => false
    case AnswerConflict(at, r) => r == revision && !Permitted(files, req) && Broken(files, req, at)
    case AnswerUnchanged(r, etags) =>
      Permitted(files, req) && r == revision && Publish(files, req.muts) == files && etags == EtagsOf(req.muts)
    case AnswerWritten(r, etags) =>
      Permitted(files, req) && r == revision + 1 && Publish(files, req.muts) != files && etags == EtagsOf(req.muts)
    case Thrown => Permitted(files, req) && revision + 1 > MAX_SAFE_INTEGER
  }

  lemma DeservedAnswers(files: Files, revision: nat, req: Request, a: Answer, after: Files)
    requires Deserved(files, revision, req, a) && DistinctPaths(req.muts)
    requires a.AnswerWritten? ==> after == Publish(files, req.muts)
    requires !a.AnswerWritten? ==> after == files
    ensures a.AnswerWritten? || a.AnswerUnchanged? ==> Answers(after, req.muts, a.etags)
  {
    EtagsAreThose(files, req.muts);
  }

  /** A precondition on this place is false. */
  ghost predicate Broken(files: Files, req: Request, at: Place) {
    match at
    case AtFile(path) =>
      || (exists i :: 0 <= i < |req.muts| && req.muts[i].path == path
                      && !req.muts[i].expected.Anything? && req.muts[i].expected.etag != EtagAt(files, path))
      || (exists i :: 0 <= i < |req.checks| && req.checks[i].path == path && req.checks[i].etag != EtagAt(files, path))
    case AtDirectory(dir) =>
      exists i :: 0 <= i < |req.listings| && req.listings[i].dir == dir
                  && multiset(req.listings[i].names) != multiset(Names(files, dir))
  }

  /** Every changed file has its event. */
  ghost predicate AllReported(muts: seq<Mutation>, files: Files, revision: nat, id: TxId, log: seq<Event>) {
    forall m :: m in muts && HashOf(m.content) != EtagAt(files, m.path) ==>
      Event(m.path, revision, HashOf(m.content), m.who, id) in log
  }

  lemma SweptIsRecoverable(d: Disk, listing: seq<Entry>)
    requires Recoverable(d)
    ensures Recoverable(Run(d, OrphanScript(d, listing)))
  {
    var v := if q :| Pending(d, q) then Version(IntentOf(d, q).revision, Overlay(d.files, IntentOf(d, q).targets))
             else Version(d.revision, d.files);
    assert Denotes(d, v);
    OrphansRun(d, listing, v);
    RunKeeps(d, OrphanScript(d, listing), v);
  }

  lemma ReportedChanges(muts: seq<Mutation>, current: seq<Option<Etag>>, files: Files, id: TxId, revision: nat,
                        log: seq<Event>)
    requires |current| == |muts| && Current(files, muts, current) && DistinctPaths(muts)
    ensures
      var it := Intent(revision, TargetsOf(Changed(muts, current)));
      AllReported(muts, files, revision, id, log + Events(id, it, 0))
  {
    var changed := Changed(muts, current);
    var it := Intent(revision, TargetsOf(changed));
    ChangedMembers(muts, current);
    EventsCover(id, it, 0);
    forall m | m in muts && HashOf(m.content) != EtagAt(files, m.path)
      ensures Event(m.path, revision, HashOf(m.content), m.who, id) in log + Events(id, it, 0)
    {
      var i :| 0 <= i < |muts| && muts[i] == m;
      assert current[i] == EtagAt(files, m.path) && m in changed;
      var k :| 0 <= k < |changed| && changed[k] == m;
      assert EventFor(id, it, it.targets[k]) in Events(id, it, 0);
    }
  }

  /** Replaying is finishing this one transaction, and nothing stands in its way. */
  ghost predicate Replays(d: Disk, e: Entry, listing: seq<Entry>) {
    && Pending(d, e.id) && Finishable(d, e.id, IntentOf(d, e.id)) && Distinct(IntentOf(d, e.id).targets)
    && ReplayScript(d, listing) == FinishScript(d, e.id, IntentOf(d, e.id), e.how)
  }

  lemma RecoverParts(d: Disk, listing: seq<Entry>, trace: seq<Step>)
    ensures
      var m := Run(d, OrphanScript(d, listing));
      && trace + RecoverScript(d, listing) == (trace + OrphanScript(d, listing)) + ReplayScript(m, listing)
      && Run(d, RecoverScript(d, listing)) == Run(m, ReplayScript(m, listing))
  {
    var sweep := OrphanScript(d, listing);
    var replay := ReplayScript(Run(d, sweep), listing);
    RunConcat(d, sweep, replay);
    Regroup(trace, sweep, replay, []);
  }

  lemma OneOfOne<T>(a: seq<T>, b: seq<T>)
    requires multiset(a) == multiset(b) && |b| <= 1
    ensures a == b
  {
    assert |a| == |multiset(a)| && |b| == |multiset(b)|;
    if a != [] {
      assert a[0] in multiset(a);
    }
  }

  lemma FoundOnce(d: Disk, e: Disk, listing: seq<Entry>, found: seq<Entry>)
    requires Recoverable(e) && SameIntents(d, e) && multiset(found) == multiset(Intended(d, listing))
    requires forall i, j :: 0 <= i < j < |listing| ==> listing[i].id != listing[j].id
    ensures found == [] ==> ReplayScript(e, listing) == []
    ensures found != [] ==> Replays(e, found[0], listing) && found[0] in listing
  {
    SameIntentsSameList(d, e, listing);
    IntendedArePending(e, listing);
    IntendedOnce(e, listing);
    OneOfOne(found, Intended(e, listing));
    if found != [] {
      assert IntentOk(e, found[0].id);
    }
  }

  lemma SameIntentsSameList(d: Disk, e: Disk, listing: seq<Entry>)
    requires SameIntents(d, e)
    ensures Intended(d, listing) == Intended(e, listing)
  {
    if listing != [] {
      SameIntentsSameList(d, e, listing[1..]);
    }
  }
}
