/** Product operations running concurrently on the engine: any interleaving, any crashes. */
module ProductRuns {
  import opened Wrappers
  import opened Documents
  import opened Storage
  import opened Requests
  import opened Schemas
  import opened Products
  import opened Serialisability
  import opened Consistency
  import opened Visibility
  import opened ProductTheorems
  import opened EditSafety
  import opened Engine
  import opened EngineHistory
  import opened EngineTheorems

  /** The request is what a product operation computed from some file set, however old. */
  ghost predicate ProductWrite(host: Host, req: Request, ctx: Context, service: string, op: Operation, seen: Files) {
    && ctx.host == host && Succeeds(ctx, service, op, seen)
    && req == RequestOf(seen, ctx.actor, service, Perform(ctx, service, op, seen).value)
  }

  /** A product operation's request, or one that touches none of the files products are made of. */
  ghost predicate Trusted(host: Host, req: Request) {
    || (exists ctx, service, op, seen :: ProductWrite(host, req, ctx, service, op, seen))
    || (forall i :: 0 <= i < |req.muts| ==> Unrelated(req.muts[i].path))
  }

  lemma {:induction false} UnrelatedWritesKeep(host: Host, files: Files, ts: seq<Target>)
    requires Consistent(host, files) && forall i :: 0 <= i < |ts| ==> Unrelated(ts[i].path)
    ensures Consistent(host, Overlay(files, ts))
  {
    if ts != [] {
      var last := ts[|ts| - 1];
      UnrelatedWritesKeep(host, files, ts[..|ts| - 1]);
      UnrelatedKeeps(host, Overlay(files, ts[..|ts| - 1]), last.path,
                     if last.hash.Some? then Some(last.hash.value.content) else None);
    }
  }

  /** A product operation computed from a stale snapshot, if it is let through, keeps the tree consistent. */
  lemma StaleOperationKeeps(host: Host, files: Files, req: Request, ctx: Context, service: string, op: Operation, seen: Files)
    requires Consistent(host, files) && Permitted(files, req)
    requires ProductWrite(host, req, ctx, service, op, seen)
    ensures Consistent(host, Publish(files, req.muts))
  {
    var plan := Perform(ctx, service, op, seen).value;
    Serialisable(ctx, service, op, seen, files);
    OperationKeepsConsistency(ctx, service, Unguarded(op), files);
    AppliedIsOverlay(files, seen, ctx.actor, plan.writes);
    AppliedIsOverlay(files, files, ctx.actor, plan.writes);
  }

  lemma CommitKeeps(host: Host, v: Version, req: Request, w: Version)
    requires Consistent(host, v.files) && Follows(v, req, w) && Trusted(host, req)
    ensures Consistent(host, w.files)
  {
    if ctx, service, op, seen :| ProductWrite(host, req, ctx, service, op, seen) {
      StaleOperationKeeps(host, v.files, req, ctx, service, op, seen);
    } else {
      UnrelatedWritesKeep(host, v.files, TargetsOf(req.muts));
    }
  }

  lemma LineageStep(versions: seq<Version>, commits: seq<Commit>, n: nat)
    requires Lineage(versions, commits) && n < |commits|
    ensures |versions| == |commits| + 1 && Follows(versions[n], commits[n].req, versions[n + 1])
  {
  }

  lemma {:induction false} HistoryIsConsistent(host: Host, versions: seq<Version>, commits: seq<Commit>, n: nat)
    requires Lineage(versions, commits) && n < |versions| && Consistent(host, versions[0].files)
    requires forall i :: 0 <= i < |commits| ==> Trusted(host, commits[i].req)
    ensures Consistent(host, versions[n].files)
  {
    if n > 0 {
      HistoryIsConsistent(host, versions, commits, n - 1);
      LineageStep(versions, commits, n - 1);
      CommitKeeps(host, versions[n - 1], commits[n - 1].req, versions[n]);
    }
  }

  /** Temporaries of `.revision` are none of the files products are made of. */
  lemma {:induction false} ConsistentBeside(host: Host, files: Files, temps: seq<Temp>)
    requires Consistent(host, files)
    ensures Consistent(host, files + LeftBy(temps))
  {
    if temps == [] {
      assert files + LeftBy(temps) == files;
    } else {
      var init, last := temps[..|temps| - 1], temps[|temps| - 1];
      ConsistentBeside(host, files, init);
      UnrelatedKeeps(host, files + LeftBy(init), last.Path(), Some(last.held));
      assert files + LeftBy(temps) == (files + LeftBy(init))[last.Path() := last.held];
    }
  }

  /**
   * Over every run of the engine, with any number of product operations interleaved, each working
   * from whatever snapshot it took, and with failures and crashes at any step: every committed version
   * is consistent, and so is every snapshot handed out, whatever temporaries lie beside the version in it.
   */
  lemma RunsStayConsistent(host: Host, s: State, actions: seq<Action>)
    requires Init(s) && Legal(s, actions) && Consistent(host, s.versions[0].files)
    requires forall i :: 0 <= i < |After(s, actions).commits| ==> Trusted(host, After(s, actions).commits[i].req)
    ensures
      var t := After(s, actions);
      && (forall n :: 0 <= n < |t.versions| ==> Consistent(host, t.versions[n].files))
      && (forall pid :: pid in t.procs && t.procs[pid].outcome.Saw? ==>
            Consistent(host, t.procs[pid].outcome.version.files))
  {
    Linearisable(s, actions);
    var t := After(s, actions);
    forall n | 0 <= n < |t.versions| ensures Consistent(host, t.versions[n].files) {
      HistoryIsConsistent(host, t.versions, t.commits, n);
    }
    forall pid | pid in t.procs && t.procs[pid].outcome.Saw?
      ensures Consistent(host, t.procs[pid].outcome.version.files)
    {
      var v := t.procs[pid].outcome.version;
      assert ShowsVersion(t, t.procs[pid]);
      var n: nat, k: nat :| n < |t.versions| && k <= |t.torn| && v.files == t.versions[n].files + LeftBy(t.torn[..k]);
      ConsistentBeside(host, t.versions[n].files, t.torn[..k]);
    }
  }

  /**
   * Over every run: a committed edit that carried its author's ETag replaced exactly the file that
   * ETag is of, however many other calls were published since the author read it.
   */
  lemma NoLostUpdate(s: State, actions: seq<Action>, n: nat, ctx: Context, service: string, op: Operation, seen: Files,
                     e: string, etag: Option<Etag>)
    requires Init(s) && Legal(s, actions) && n < |After(s, actions).commits|
    requires ProductWrite(ctx.host, After(s, actions).commits[n].req, ctx, service, op, seen) && EditsOn(op, e, etag)
    ensures n < |After(s, actions).versions| && EtagAt(After(s, actions).versions[n].files, ConfigYaml(service, e)) == etag
  {
    Linearisable(s, actions);
    var t := After(s, actions);
    LineageStep(t.versions, t.commits, n);
    EditFindsItsFile(ctx, service, op, seen, t.versions[n].files, e, etag);
  }
}
