/** The editor's own ETag: an edit is let through only on the file its author saw, up to its publication. */
module EditSafety {
  import opened Wrappers
  import opened Documents
  import opened Text
  import Storage
  import opened Requests
  import opened Schemas
  import opened Builder
  import opened Products
  import opened Serialisability
  import opened Consistency
  import opened Visibility
  import opened ProductSafety
  import opened KeyEdits
  import opened ProductDecisions

  /** The environment an edit is made in, and the ETag its author gave for it. */
  predicate EditsOn(op: Operation, environment: string, etag: Option<Etag>) {
    (op.WriteOp? || op.AddOp?) && op.environment == environment && op.expected == Some(etag)
  }

  /** The same edit without an ETag. */
  function Blind(op: Operation): Operation
    requires op.WriteOp? || op.AddOp?
  {
    match op
    case WriteOp(environment, changes, _) => WriteOp(environment, changes, None)
    case AddOp(environment, drafts, _) => AddOp(environment, drafts, None)
  }

  lemma ValuesExpect(s: Session, e: string, changes: seq<Change>, etag: Option<Etag>)
    ensures EtagAt(s.files, s.Home(e)) == etag ==> Values(s, e, changes, Some(etag)) == Values(s, e, changes, None)
    ensures EtagAt(s.files, s.Home(e)) != etag && Values(s, e, changes, None).Ok? ==>
              Values(s, e, changes, Some(etag)) == Err(FileChanged)
    ensures EtagAt(s.files, s.Home(e)) != etag ==> Values(s, e, changes, Some(etag)).Err?
  {
  }

  lemma RewriteExpect(s: Session, grown: Keys, e: string, values: Config, etag: Option<Etag>,
                      touched: seq<string>, at: string)
    ensures
      var seen := Rewrite(s, grown, Lay(e, values, Some(etag)), touched, at);
      var blind := Rewrite(s, grown, Lay(e, values, None), touched, at);
      && (at != e || EtagAt(s.files, s.Home(e)) == etag ==> seen == blind)
      && (at == e && EtagAt(s.files, s.Home(e)) != etag ==> seen.Err? && (blind.Ok? ==> seen == Err(FileChanged)))
  {
  }

  lemma {:induction false} LayExpect(s: Session, grown: Keys, e: string, values: Config, etag: Option<Etag>,
                                     touched: seq<string>, envs: seq<string>)
    ensures
      var seen := RewriteAll(s, grown, Lay(e, values, Some(etag)), touched, envs);
      var blind := RewriteAll(s, grown, Lay(e, values, None), touched, envs);
      && (EtagAt(s.files, s.Home(e)) == etag ==> seen == blind)
      && (EtagAt(s.files, s.Home(e)) != etag && e in envs ==> seen.Err? && (blind.Ok? ==> seen == Err(FileChanged)))
    decreases |envs|
  {
    if envs != [] {
      RewriteExpect(s, grown, e, values, etag, touched, envs[0]);
      LayExpect(s, grown, e, values, etag, touched, envs[1..]);
      assert envs == [envs[0]] + envs[1..];
    }
  }

  lemma AddExpect(s: Session, e: string, drafts: seq<KeyDraft>, etag: Option<Etag>)
    ensures EtagAt(s.files, s.Home(e)) == etag ==> AddKeys(s, e, drafts, Some(etag)) == AddKeys(s, e, drafts, None)
    ensures EtagAt(s.files, s.Home(e)) != etag ==> AddKeys(s, e, drafts, Some(etag)).Err?
    ensures EtagAt(s.files, s.Home(e)) != etag && AddKeys(s, e, drafts, None).Ok? ==>
              AddKeys(s, e, drafts, Some(etag)) == Err(FileChanged)
  {
    var grown := Grow(s, drafts);
    if grown.Ok? && s.Home(e) in s.files {
      assert e in s.Environments();
      LayExpect(s, grown.value.keys, e, DraftDefaults(drafts), etag, NamesOf(drafts), Listed(s.Environments()));
    }
  }

  /**
   * An edit with an ETag is let through exactly if it would be without one and the file is the one the
   * ETag is of; an edit that has nothing else wrong with it is refused as a conflict otherwise.
   */
  lemma EditIff(ctx: Context, service: string, op: Operation, files: Files, e: string, etag: Option<Etag>)
    requires EditsOn(op, e, etag)
    ensures
      var seen, blind := Perform(ctx, service, op, files), Perform(ctx, service, Blind(op), files);
      && (seen.Ok? <==> blind.Ok? && EtagAt(files, ConfigYaml(service, e)) == etag)
      && (seen.Ok? ==> seen == blind)
      && (blind.Ok? && EtagAt(files, ConfigYaml(service, e)) != etag ==> seen == Err(FileChanged))
  {
    var session := Open(ctx, service, files);
    if Identifier(service) && session.Ok? {
      var s := session.value;
      match op
      case WriteOp(_, changes, _) => ValuesExpect(s, e, changes, etag);
      case AddOp(_, drafts, _) => AddExpect(s, e, drafts, etag);
    }
  }

  /** Whatever an edit is computed from, its target is among the paths it read. */
  lemma TargetIsRead(ctx: Context, service: string, op: Operation, files: Files, e: string, etag: Option<Etag>)
    requires EditsOn(op, e, etag) && Perform(ctx, service, op, files).Ok?
    ensures ConfigYaml(service, e) in Perform(ctx, service, op, files).value.consulted
  {
    var s := Open(ctx, service, files).value;
    match op
    case WriteOp(_, changes, _) =>
    case AddOp(_, drafts, _) => AddReadsTarget(s, e, drafts, op.expected);
  }

  lemma AddReadsTarget(s: Session, e: string, drafts: seq<KeyDraft>, expected: Expected)
    requires AddKeys(s, e, drafts, expected).Ok?
    ensures s.Home(e) in AddKeys(s, e, drafts, expected).value.consulted
  {
    var envs := Listed(s.Environments());
    AllRead(BaseReads(s.service), s, envs);
    assert s.Home(e) in s.files && e in s.Environments();
    var i :| 0 <= i < |envs| && envs[i] == e;
    assert s.Home(envs[i]) == s.Home(e);
  }

  /**
   * No lost update. An edit is computed from some snapshot, and published later on a database that may
   * have changed since: if the engine lets it through, the file it replaces there is still the very
   * file whose ETag its author gave.
   */
  lemma EditFindsItsFile(ctx: Context, service: string, op: Operation, seen: Files, now: Files, e: string, etag: Option<Etag>)
    requires EditsOn(op, e, etag) && Perform(ctx, service, op, seen).Ok?
    requires Permitted(now, RequestOf(seen, ctx.actor, service, Perform(ctx, service, op, seen).value))
    ensures EtagAt(now, ConfigYaml(service, e)) == etag
  {
    EditIff(ctx, service, op, seen, e, etag);
    TargetIsRead(ctx, service, op, seen, e, etag);
    PermittedIsCovered(seen, now, ctx.actor, service, Perform(ctx, service, op, seen).value);
    assert Same(seen, now, ConfigYaml(service, e));
  }

  // ---- what is handed to the engine ----

  /** A request is let through exactly where all it read, all it writes and its listing are as it saw them. */
  lemma PermittedIsCoveredIff(a: Files, b: Files, actor: string, service: string, plan: Plan)
    ensures Permitted(b, RequestOf(a, actor, service, plan)) <==>
            && (forall e :: ConfigYaml(service, e) in a <==> ConfigYaml(service, e) in b)
            && (forall p :: p in plan.consulted ==> Peek(a, p) == Peek(b, p))
            && (forall w :: w in plan.writes ==> Peek(a, w.path) == Peek(b, w.path))
  {
    if Permitted(b, RequestOf(a, actor, service, plan)) {
      PermittedIsCovered(a, b, actor, service, plan);
      forall e ensures ConfigYaml(service, e) in a <==> ConfigYaml(service, e) in b {
        NamedThere(a, service, e);
        NamedThere(b, service, e);
      }
      forall p | p in plan.consulted ensures Peek(a, p) == Peek(b, p) {
        SamePeek(a, b, p);
      }
      forall w | w in plan.writes ensures Peek(a, w.path) == Peek(b, w.path) {
        var i :| 0 <= i < |plan.writes| && plan.writes[i] == w;
        SamePeek(a, b, plan.writes[i].path);
      }
    }
    if && (forall e :: ConfigYaml(service, e) in a <==> ConfigYaml(service, e) in b)
       && (forall p :: p in plan.consulted ==> Peek(a, p) == Peek(b, p))
       && (forall w :: w in plan.writes ==> Peek(a, w.path) == Peek(b, w.path)) {
      CoveredIsPermitted(a, b, actor, service, plan);
    }
  }

  lemma NamedThere(files: Files, service: string, e: string)
    ensures e in Names(files, ConfigDir(service)) <==> ConfigYaml(service, e) in files
  {
    if ConfigYaml(service, e) in files {
      assert ConfigYaml(service, e).name == e;
    }
  }

  lemma CoveredIsPermitted(a: Files, b: Files, actor: string, service: string, plan: Plan)
    requires forall e :: ConfigYaml(service, e) in a <==> ConfigYaml(service, e) in b
    requires forall p :: p in plan.consulted ==> Peek(a, p) == Peek(b, p)
    requires forall w :: w in plan.writes ==> Peek(a, w.path) == Peek(b, w.path)
    ensures Permitted(b, RequestOf(a, actor, service, plan))
  {
    var req := RequestOf(a, actor, service, plan);
    var names := Listed(Names(a, ConfigDir(service)));
    forall i, j | 0 <= i < j < |names| ensures names[i] != names[j] {
      AscendingIsDistinct(names, i, j);
    }
    forall e ensures e in names <==> ConfigYaml(service, e) in b {
      NamedThere(a, service, e);
    }
    ListingIff(b, req.listings[0]);
    forall i | 0 <= i < |req.checks| ensures ReadHolds(b, req.checks[i]) {
      assert plan.consulted[i] in plan.consulted;
    }
    forall i | 0 <= i < |req.muts| ensures ExpectationHolds(EtagAt(b, req.muts[i].path), req.muts[i]) {
      assert plan.writes[i] in plan.writes;
    }
  }
}
