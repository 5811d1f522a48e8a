/**
 * What every run of the engine keeps: the disk always stands for the last committed version, and
 * every call is answered as if committed versions followed one another one call at a time.
 */
module EngineHistory {
  import opened Wrappers
  import opened Documents
  import opened Storage
  import opened Recovery
  import opened Requests
  import opened LockTable
  import opened Engine
  import opened EngineLocks

  // ---- the sequential database ----

  /** `w` is `v` after `req` alone, all of whose preconditions hold in `v`. */
  ghost predicate Follows(v: Version, req: Request, w: Version) {
    && DistinctPaths(req.muts) && LegalPaths(req.muts) && Valid(req)
    && Permitted(v.files, req)
    && w == Version(v.revision + 1, Publish(v.files, req.muts))
    && w.files != v.files
  }

  ghost predicate Lineage(versions: seq<Version>, commits: seq<Commit>) {
    && |versions| == |commits| + 1
    && forall n :: 0 <= n < |commits| ==> Follows(versions[n], commits[n].req, versions[n + 1])
  }

  /** An answer that says something about the database. */
  predicate Tells(o: Outcome) {
    o.Written? || o.Unchanged? || o.Conflict? || o.Saw? || o.Fetched?
  }

  /**
   * The sequential database gives this answer once exactly `n` calls have committed; a call told
   * `Written` is itself the last of them.
   */
  ghost predicate AnswersAt(versions: seq<Version>, commits: seq<Commit>, pid: Pid, call: Call, o: Outcome, n: nat) {
    && n < |versions|
    && match o
       case Written(revision) =>
         call.WriteMany? && 0 < n <= |commits| && commits[n - 1] == Commit(pid, call.req)
         && versions[n].revision == revision
       case Unchanged(revision) =>
         call.WriteMany? && versions[n].revision == revision && Permitted(versions[n].files, call.req)
         && Publish(versions[n].files, call.req.muts) == versions[n].files
       case Conflict(revision) =>
         call.WriteMany? && versions[n].revision == revision && !Permitted(versions[n].files, call.req)
       case Saw(v) => call.Snapshot? && v.revision == versions[n].revision && Bare(v.files) == versions[n].files
       case Fetched(content) =>
         && call.Fetch? && (content.Some? <==> call.path in versions[n].files)
         && (content.Some? ==> content.value == versions[n].files[call.path])
       case _ => false
  }

  /** The answer is the sequential database's at a point of its history no earlier than the call. */
  ghost predicate Honest(versions: seq<Version>, commits: seq<Commit>, pid: Pid, p: Proc, o: Outcome) {
    Tells(o) ==> exists n: nat :: AnswersAt(versions, commits, pid, p.call, o, n) && InTime(p, o, n)
  }

  predicate InTime(p: Proc, o: Outcome, n: nat) {
    p.since + (if o.Written? then 1 else 0) <= n
  }

  lemma AnswerStands(versions: seq<Version>, commits: seq<Commit>, versions': seq<Version>, commits': seq<Commit>,
                     pid: Pid, call: Call, o: Outcome, n: nat)
    requires AnswersAt(versions, commits, pid, call, o, n)
    requires versions <= versions' && commits <= commits'
    ensures AnswersAt(versions', commits', pid, call, o, n)
  {
    assert versions'[n] == versions[n];
  }

  lemma HonestGrows(versions: seq<Version>, commits: seq<Commit>, versions': seq<Version>, commits': seq<Commit>,
                    pid: Pid, p: Proc, o: Outcome)
    requires Honest(versions, commits, pid, p, o)
    requires versions <= versions' && commits <= commits'
    ensures Honest(versions', commits', pid, p, o)
  {
    if Tells(o) {
      var n: nat :| AnswersAt(versions, commits, pid, p.call, o, n) && InTime(p, o, n);
      AnswerStands(versions, commits, versions', commits', pid, p.call, o, n);
    }
  }

  /** What is answered from the last version is honest. */
  lemma LastIsHonest(versions: seq<Version>, commits: seq<Commit>, pid: Pid, p: Proc, o: Outcome)
    requires versions != [] && p.since < |versions| && !o.Written?
    requires Tells(o) ==> AnswersAt(versions, commits, pid, p.call, o, |versions| - 1)
    ensures Honest(versions, commits, pid, p, o)
  {
    if Tells(o) {
      assert InTime(p, o, |versions| - 1);
    }
  }

  // ---- the invariant ----

  predicate Committing(p: Proc) {
    p.pc.Publishing? && p.pc.result.Written?
  }

  ghost predicate DiskInv(s: State) {
    && s.versions != []
    && Recoverable(s.disk) && Denotes(s.disk, s.Last()) && OnlyDots(s.disk.strays) && NoDots(s.Last().files)
    && (s.boot.Recovering? ==> Safe(s.disk, s.boot.script) && Quiet(Run(s.disk, s.boot.script)))
    && (!s.boot.Up? ==> forall pid :: pid in s.procs ==> s.procs[pid].pc.Booting? || s.procs[pid].pc.Finished?)
    && (s.boot.Up? && !s.broken ==>
          Quiet(s.disk) || exists pid :: pid in s.procs && Committing(s.procs[pid]))
  }

  /** The steps of a script touch one journal directory. */
  predicate OwnSteps(script: seq<Step>, tx: Option<TxId>) {
    forall k :: 0 <= k < |script| ==> script[k].Emit? || Some(script[k].id) == tx
  }

  ghost predicate ScriptInv(s: State, p: Proc)
    requires p.pc.Publishing?
  {
    && Safe(s.disk, p.pc.script) && OwnSteps(p.pc.script, p.tx)
    && (p.pc.result.Written? ==> Quiet(Run(s.disk, p.pc.script)) && !s.broken)
  }

  /** The first `n` payloads of a transaction are staged and it has no intent. */
  ghost predicate StagedUpTo(d: Disk, p: Proc, n: nat)
    requires |p.current| == |p.Muts()|
  {
    var changed := Changed(p.Muts(), p.current);
    && n <= |changed| && p.tx.Some? && p.tx.value in d.dirs && d.dirs[p.tx.value].intent == None
    && forall i :: 0 <= i < n && changed[i].content.Some? ==>
         i in d.dirs[p.tx.value].stages && d.dirs[p.tx.value].stages[i] == changed[i].content.value
  }

  ghost predicate TxInv(d: Disk, p: Proc) {
    && (p.pc.Staging? ==> |p.current| == |p.Muts()| && StagedUpTo(d, p, p.pc.j))
    && (p.pc.Entering? && p.tx.Some? ==>
          |p.current| == |p.Muts()| && StagedUpTo(d, p, |Changed(p.Muts(), p.current)|))
    && (p.pc.Publishing? && p.tx.Some? && !p.pc.result.Written? ==> !Pending(d, p.tx.value))
  }

  predicate ComparesEtags(pc: Pc) {
    pc.Reading? || pc.Comparing? || pc.Refusing? || pc.Staging? || pc.Entering?
  }

  /** The ETags a call read are still the database's: nobody else can write its files. */
  ghost predicate EtagInv(files: Files, p: Proc) {
    ComparesEtags(p.pc) ==> Current(files, p.Muts(), p.current)
  }

  ghost predicate ProcInv(s: State, pid: Pid)
    requires pid in s.procs && s.versions != []
  {
    var p := s.procs[pid];
    && (p.pc.Publishing? ==> ScriptInv(s, p) && Honest(s.versions, s.commits, pid, p, p.pc.result))
    && TxInv(s.disk, p)
    && EtagInv(s.Last().files, p)
    && Honest(s.versions, s.commits, pid, p, p.outcome) && p.since < |s.versions|
  }

  ghost predicate ProcsInv(s: State) {
    && s.versions != []
    && (forall pid :: pid in s.procs ==> ProcInv(s, pid))
    && (forall a, b :: a in s.procs && b in s.procs && a != b && s.procs[a].tx.Some? ==>
          s.procs[a].tx != s.procs[b].tx)
  }

  ghost predicate Inv(s: State) {
    LocksOk(s) && DiskInv(s) && Lineage(s.versions, s.commits) && ProcsInv(s)
  }

  // ---- other transactions' directories ----

  /** `d` and `e` differ at most in one journal directory, in which neither has an intent. */
  ghost predicate SameBut(d: Disk, e: Disk, tx: TxId) {
    && d.files == e.files && d.revision == e.revision && d.strays == e.strays
    && (forall id :: id != tx ==> (id in d.dirs <==> id in e.dirs))
    && (forall id :: id != tx && id in d.dirs ==> d.dirs[id] == e.dirs[id])
    && !Pending(d, tx) && !Pending(e, tx)
  }

  lemma SameMeaning(d: Disk, e: Disk, tx: TxId, v: Version)
    requires SameBut(d, e, tx) && Recoverable(d) && Denotes(d, v)
    ensures Recoverable(e) && Denotes(e, v)
    ensures Quiet(d) ==> Quiet(e)
  {
    assert forall id :: Pending(d, id) <==> Pending(e, id);
    forall id | Pending(e, id)
      ensures IntentOf(e, id) == IntentOf(d, id) && IntentOk(e, id)
    {
      assert IntentOk(d, id);
    }
  }

  lemma StepElsewhere(d: Disk, e: Disk, tx: TxId, step: Step)
    requires SameBut(d, e, tx) && StepOk(d, step) && (step.Emit? || step.id != tx)
    ensures StepOk(e, step) && SameBut(Exec(d, step), Exec(e, step), tx)
  {
  }

  /** Work in one's own journal directory does not disturb another's script. */
  lemma {:induction false} ScriptElsewhere(d: Disk, e: Disk, tx: TxId, script: seq<Step>, own: Option<TxId>)
    requires SameBut(d, e, tx) && Safe(d, script) && OwnSteps(script, own) && own != Some(tx)
    ensures Safe(e, script)
    ensures Quiet(Run(d, script)) ==> Quiet(Run(e, script))
    decreases |script|
  {
    if script == [] {
      assert forall id :: Pending(d, id) <==> Pending(e, id);
    } else {
      StepElsewhere(d, e, tx, script[0]);
      ScriptElsewhere(Exec(d, script[0]), Exec(e, script[0]), tx, script[1..], own);
    }
  }

  predicate DirSame(d: Disk, e: Disk, id: TxId) {
    (id in d.dirs <==> id in e.dirs) && (id in d.dirs ==> d.dirs[id] == e.dirs[id])
  }

  // ---- calls that do not move ----

  lemma BystanderKeeps(s: State, t: State, x: Pid)
    requires x in s.procs && x in t.procs && t.procs[x] == s.procs[x]
    requires s.versions != [] && ProcInv(s, x)
    requires t.versions != [] && s.versions <= t.versions && s.commits <= t.commits
    requires s.procs[x].tx.Some? ==> DirSame(s.disk, t.disk, s.procs[x].tx.value)
    requires s.procs[x].pc.Publishing? ==> ScriptInv(t, s.procs[x])
    requires EtagInv(t.Last().files, s.procs[x])
    ensures ProcInv(t, x)
  {
    var p := s.procs[x];
    HonestGrows(s.versions, s.commits, t.versions, t.commits, x, p, p.outcome);
    if p.pc.Publishing? {
      HonestGrows(s.versions, s.commits, t.versions, t.commits, x, p, p.pc.result);
    }
  }

  /** What a moving call owes the others, by what it does to the disk. */
  lemma ProcsKeep(s: State, t: State, pid: Pid)
    requires ProcsInv(s) && pid in s.procs && pid in t.procs && t.procs == s.procs[pid := t.procs[pid]]
    requires t.versions != [] && s.versions <= t.versions && s.commits <= t.commits
    requires ProcInv(t, pid)
    requires forall x :: x in s.procs && x != pid && t.procs[pid].tx.Some? ==> s.procs[x].tx != t.procs[pid].tx
    requires forall x :: x in s.procs && x != pid && s.procs[x].tx.Some? ==>
               DirSame(s.disk, t.disk, s.procs[x].tx.value)
    requires forall x :: x in s.procs && x != pid && s.procs[x].pc.Publishing? ==> ScriptInv(t, s.procs[x])
    requires forall x :: x in s.procs && x != pid ==> EtagInv(t.Last().files, s.procs[x])
    ensures ProcsInv(t)
  {
    forall x | x in t.procs ensures ProcInv(t, x) {
      if x != pid {
        BystanderKeeps(s, t, x);
      }
    }
  }

  /** Nothing but the mover's own variables changed. */
  lemma QuietMove(s: State, t: State, pid: Pid)
    requires ProcsInv(s) && pid in s.procs && pid in t.procs && t.procs == s.procs[pid := t.procs[pid]]
    requires t.disk == s.disk && t.versions == s.versions && t.commits == s.commits
    requires t.broken == s.broken || (t.broken && forall x :: x in s.procs && x != pid ==> !Committing(s.procs[x]))
    requires t.procs[pid].tx == s.procs[pid].tx
    requires ProcInv(t, pid)
    ensures ProcsInv(t)
  {
    forall x | x in s.procs && x != pid
      ensures EtagInv(t.Last().files, s.procs[x])
      ensures s.procs[x].pc.Publishing? ==> ScriptInv(t, s.procs[x])
    {
      assert ProcInv(s, x);
    }
    ProcsKeep(s, t, pid);
  }

  /** The mover worked in its own, uncommitted journal directory. */
  lemma DirMove(s: State, t: State, pid: Pid, tx: TxId)
    requires ProcsInv(s) && pid in s.procs && pid in t.procs && t.procs == s.procs[pid := t.procs[pid]]
    requires SameBut(s.disk, t.disk, tx) && t.versions == s.versions && t.commits == s.commits
    requires t.broken == s.broken && t.procs[pid].tx == Some(tx)
    requires forall x :: x in s.procs && x != pid ==> s.procs[x].tx != Some(tx)
    requires ProcInv(t, pid)
    ensures ProcsInv(t)
  {
    forall x | x in s.procs && x != pid
      ensures EtagInv(t.Last().files, s.procs[x])
      ensures s.procs[x].pc.Publishing? ==> ScriptInv(t, s.procs[x])
    {
      var p := s.procs[x];
      assert ProcInv(s, x);
      if p.pc.Publishing? {
        ScriptElsewhere(s.disk, t.disk, tx, p.pc.script, p.tx);
      }
    }
    ProcsKeep(s, t, pid);
  }

  /** Publication is exclusive. */
  lemma OnePublisher(s: State, pid: Pid)
    requires PubOk(s) && Heads(s.pub, pid)
    ensures forall x :: x in s.procs && x != pid ==> !s.procs[x].pc.Publishing?
  {
    forall x | x in s.procs && s.procs[x].pc.Publishing? ensures x == pid {
      assert Heads(s.pub, x);
    }
  }

  /** Under the publication lock a healthy engine's live files are the last committed version. */
  lemma LiveFilesAreLast(s: State, pid: Pid)
    requires PubOk(s) && DiskInv(s) && pid in s.procs && InPub(s.procs[pid].pc) && Heads(s.pub, pid)
    requires !s.broken && !Committing(s.procs[pid])
    ensures s.boot.Up? && Quiet(s.disk) && Version(s.disk.revision, s.disk.files) == s.Last()
  {
    OnePublisher(s, pid);
  }

  lemma DiskMove(s: State, t: State, pid: Pid)
    requires DiskInv(s) && pid in s.procs && pid in t.procs && t.procs == s.procs[pid := t.procs[pid]]
    requires t.boot == s.boot && t.versions == s.versions && (s.broken ==> t.broken)
    requires Recoverable(t.disk) && Denotes(t.disk, s.Last()) && OnlyDots(t.disk.strays)
    requires s.boot.Up? || (s.boot.Wedged? && t.procs[pid].pc.Finished?)
    requires t.broken || Quiet(t.disk) || Committing(t.procs[pid]) || (!Committing(s.procs[pid]) && !Quiet(s.disk))
    ensures DiskInv(t)
  {
    if s.boot.Up? && !t.broken && !Quiet(t.disk) && !Committing(t.procs[pid]) {
      var c :| c in s.procs && Committing(s.procs[c]);
      assert c in t.procs && Committing(t.procs[c]);
    }
  }
}
