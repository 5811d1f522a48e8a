/** What holds of product operations as the engine publishes them: at every crash point, over every run. */
module ProductTheorems {
  import opened Wrappers
  import opened Documents
  import opened Text
  import opened Storage
  import opened Requests
  import opened Schemas
  import opened Builder
  import opened Registry
  import opened Products
  import opened Serialisability
  import opened Consistency
  import opened Visibility
  import opened ProductSafety
  import opened KeyEdits
  import opened KeyAdditions

  ghost predicate Succeeds(ctx: Context, service: string, op: Operation, files: Files) {
    Perform(ctx, service, op, files).Ok?
  }

  lemma Opened(ctx: Context, service: string, op: Operation, files: Files) returns (s: Session)
    requires Consistent(ctx.host, files) && Succeeds(ctx, service, op, files)
    ensures Ready(s) && s.service == service && s.ctx == ctx && s.files == files
    ensures Act(s, op) == Perform(ctx, service, op, files)
  {
    s := Open(ctx, service, files).value;
  }

  /** Whether an operation brings values no schema on disk knows yet. */
  ghost predicate Outruns(op: Operation) {
    op.AddOp? && DraftDefaults(op.drafts) != map[]
  }

  lemma PromoteSafe(s: Session, from: string, to: string, keys: seq<string>)
    requires Ready(s) && Promote(s, from, to, keys).Ok?
    ensures SafeAlong(s.ctx.host, s.files, Promote(s, from, to, keys).value.writes)
  {
    ValuesSafe(s, to, Copied(Select(s, keys).value, Document(s, from).value), None);
  }

  lemma ActSafeIff(s: Session, op: Operation)
    requires Ready(s) && Act(s, op).Ok?
    ensures SafeAlong(s.ctx.host, s.files, Act(s, op).value.writes) <==> !Outruns(op)
  {
    match op
    case CreateOp(uid, environments, schema, defaults) => CreateSafe(s, uid, environments, schema, defaults);
    case WriteOp(environment, changes, expected) => ValuesSafe(s, environment, changes, expected);
    case RetireOp(retiring, force) => RetireSafe(s, retiring, force);
    case PromoteOp(from, to, keys) => PromoteSafe(s, from, to, keys);
    case AddOp(environment, drafts, expected) => AddSafeIff(s, environment, drafts, expected);
    case DeleteOp(keys, expected) => DeleteSafe(s, keys, expected);
    case ArchiveOp(expected, force, at, author) => ArchiveSafe(s, expected, force, at, author);
  }

  lemma ActKeeps(s: Session, op: Operation)
    requires Ready(s) && Act(s, op).Ok?
    ensures Consistent(s.ctx.host, Applied(s.files, Act(s, op).value.writes))
  {
    if op.AddOp? {
      AddConsistent(s, op.environment, op.drafts, op.expected);
    } else {
      ActSafeIff(s, op);
      SafeAtEnd(s.ctx.host, s.files, Act(s, op).value.writes);
    }
  }

  /** One operation on a consistent database asks for a consistent database. */
  lemma OperationKeepsConsistency(ctx: Context, service: string, op: Operation, files: Files)
    requires Consistent(ctx.host, files) && Succeeds(ctx, service, op, files)
    ensures
      var req := RequestOf(files, ctx.actor, service, Perform(ctx, service, op, files).value);
      Consistent(ctx.host, Publish(files, req.muts))
  {
    var s := Opened(ctx, service, op, files);
    ActKeeps(s, op);
    AppliedIsOverlay(files, files, ctx.actor, Act(s, op).value.writes);
  }

  /**
   * Crash-prefix safety: the tree is consistent after every prefix of an operation's installs, unless
   * the operation adds keys together with defaults; and then it is not.
   */
  lemma EveryPrefixIsConsistent(ctx: Context, service: string, op: Operation, files: Files)
    requires Consistent(ctx.host, files) && Succeeds(ctx, service, op, files)
    ensures
      var targets := TargetsOf(RequestOf(files, ctx.actor, service, Perform(ctx, service, op, files).value).muts);
      (forall n: nat :: n <= |targets| ==> Consistent(ctx.host, Overlay(files, targets[..n]))) <==> !Outruns(op)
  {
    var s := Opened(ctx, service, op, files);
    ActSafeIff(s, op);
    var writes := Act(s, op).value.writes;
    var targets := TargetsOf(MutationsOf(files, ctx.actor, writes));
    forall n: nat | n <= |targets| ensures Overlay(files, targets[..n]) == Applied(files, writes[..n]) {
      AppliedIsOverlay(files, files, ctx.actor, writes[..n]);
      assert TargetsOf(MutationsOf(files, ctx.actor, writes[..n])) == targets[..n];
    }
    if !Outruns(op) {
      forall n: nat | n <= |targets| ensures Consistent(ctx.host, Overlay(files, targets[..n])) {
        SafeAtEveryPoint(ctx.host, files, writes, n);
      }
    } else if forall n: nat :: n <= |targets| ==> Consistent(ctx.host, Overlay(files, targets[..n])) {
      forall n: nat | n <= |writes| ensures Consistent(ctx.host, Applied(files, writes[..n])) {
        assert Overlay(files, targets[..n]) == Applied(files, writes[..n]);
      }
      EveryPointSafe(ctx.host, files, writes);
    }
  }

  /** Leaving out the mutations that change nothing leaves out no intermediate state. */
  lemma {:induction false} ChangedPrefix(files: Files, muts: seq<Mutation>, current: seq<Option<Etag>>, n: nat)
    returns (m: nat)
    requires |muts| == |current| && DistinctPaths(muts) && Current(files, muts, current)
    requires n <= |Changed(muts, current)|
    ensures m <= |muts|
    ensures Overlay(files, TargetsOf(Changed(muts, current))[..n]) == Overlay(files, TargetsOf(muts)[..m])
    decreases |muts|
  {
    m := 0;
    if n > 0 {
      var next := Put(files, muts[0].path, muts[0].content);
      CurrentTail(files, muts, current);
      if HashOf(muts[0].content) != current[0] {
        var k := ChangedPrefix(next, muts[1..], current[1..], n - 1);
        m := k + 1;
        BothInstall(files, muts, Changed(muts, current), m, n);
        assert Changed(muts, current)[1..] == Changed(muts[1..], current[1..]);
      } else {
        var k := ChangedPrefix(next, muts[1..], current[1..], n);
        m := k + 1;
        FirstInstall(files, muts, m);
        assert Changed(muts, current) == Changed(muts[1..], current[1..]);
      }
    }
  }

  lemma FirstInstall(files: Files, muts: seq<Mutation>, m: nat)
    requires 0 < m <= |muts|
    ensures Overlay(files, TargetsOf(muts)[..m])
            == Overlay(Put(files, muts[0].path, muts[0].content), TargetsOf(muts[1..])[..m - 1])
  {
    var all := TargetsOf(muts)[..m];
    assert all[1..] == TargetsOf(muts[1..])[..m - 1];
    OverlayFront(files, all);
  }

  lemma BothInstall(files: Files, muts: seq<Mutation>, some: seq<Mutation>, m: nat, n: nat)
    requires 0 < m <= |muts| && 0 < n <= |some| && some[0] == muts[0]
    ensures Overlay(files, TargetsOf(muts)[..m])
            == Overlay(Put(files, muts[0].path, muts[0].content), TargetsOf(muts[1..])[..m - 1])
    ensures Overlay(files, TargetsOf(some)[..n])
            == Overlay(Put(files, muts[0].path, muts[0].content), TargetsOf(some[1..])[..n - 1])
  {
    FirstInstall(files, muts, m);
    FirstInstall(files, some, n);
  }

  lemma CurrentTail(files: Files, muts: seq<Mutation>, current: seq<Option<Etag>>)
    requires muts != [] && |muts| == |current| && DistinctPaths(muts) && Current(files, muts, current)
    ensures
      var next := Put(files, muts[0].path, muts[0].content);
      && DistinctPaths(muts[1..]) && Current(next, muts[1..], current[1..])
      && (HashOf(muts[0].content) == current[0] ==> next == files)
  {
    var next := Put(files, muts[0].path, muts[0].content);
    forall i | 0 <= i < |current[1..]| ensures current[1..][i] == EtagAt(next, muts[1..][i].path) {
      assert muts[0].path.Render() != muts[i + 1].path.Render();
    }
    if HashOf(muts[0].content) == current[0] {
      assert EtagAt(files, muts[0].path) == current[0];
      SameEtagsSameFiles(next, files);
    }
  }

  /** The installs the engine makes pass through consistent trees only. */
  lemma InstallsAreConsistent(ctx: Context, service: string, op: Operation, files: Files, current: seq<Option<Etag>>, n: nat)
    requires Consistent(ctx.host, files) && Succeeds(ctx, service, op, files) && !Outruns(op)
    requires
      var muts := RequestOf(files, ctx.actor, service, Perform(ctx, service, op, files).value).muts;
      |muts| == |current| && DistinctPaths(muts) && Current(files, muts, current) && n <= |Changed(muts, current)|
    ensures
      var muts := RequestOf(files, ctx.actor, service, Perform(ctx, service, op, files).value).muts;
      Consistent(ctx.host, Overlay(files, TargetsOf(Changed(muts, current))[..n]))
  {
    var muts := RequestOf(files, ctx.actor, service, Perform(ctx, service, op, files).value).muts;
    var m := ChangedPrefix(files, muts, current, n);
    EveryPrefixIsConsistent(ctx, service, op, files);
    assert |TargetsOf(muts)| == |muts|;
  }
}
