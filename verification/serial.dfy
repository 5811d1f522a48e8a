/**
 * Product operations are serialisable: an operation computes its writes from an unlocked snapshot,
 * but if the engine accepts them, it would have computed the same from the database it changed.
 */
module Serialisability {
  import opened Wrappers
  import opened Documents
  import opened Text
  import opened Requests
  import opened Schemas
  import opened Builder
  import opened Products

  /** The same operation without the guards that look outside the read set. */
  function Unguarded(op: Operation): Operation {
    match op
    case RetireOp(retiring, _) => RetireOp(retiring, true)
    case DeleteOp(keys, _) => DeleteOp(keys, None)
    case ArchiveOp(_, force, at, author) => ArchiveOp(None, force, at, author)
    case _ => op
  }

  /** The guards themselves, as a caller can check them on a database. */
  predicate GuardHolds(op: Operation, service: string, files: Files) {
    match op
    case RetireOp(retiring, force) => retiring && !force ==> ArchivedYaml(service) !in files
    case DeleteOp(_, expected) => expected.Some? ==> expected.value == ProductBase(files, service)
    case ArchiveOp(expected, _, _, _) => expected.Some? ==> expected.value == ProductBase(files, service)
    case _ => true
  }

  // ---- what acceptance tells about the database ----

  ghost predicate Same(a: Files, b: Files, p: Path) {
    EtagAt(a, p) == EtagAt(b, p)
  }

  /** `b` is `a` wherever the plan read or writes, and lists the same environments. */
  ghost predicate Covered(a: Files, b: Files, service: string, plan: Plan) {
    && Names(a, ConfigDir(service)) == Names(b, ConfigDir(service))
    && (forall p :: p in plan.consulted ==> Same(a, b, p))
    && (forall i :: 0 <= i < |plan.writes| ==> Same(a, b, plan.writes[i].path))
  }

  lemma MultisetsOfSets(a: seq<string>, b: set<string>)
    requires multiset(a) == multiset(b)
    ensures forall x :: x in a <==> x in b
  {
    forall x ensures x in a <==> x in b {
      assert x in multiset(a) <==> x in multiset(b);
    }
  }

  lemma PermittedIsCovered(a: Files, b: Files, actor: string, service: string, plan: Plan)
    requires Permitted(b, RequestOf(a, actor, service, plan))
    ensures Covered(a, b, service, plan)
  {
    var req := RequestOf(a, actor, service, plan);
    assert ListingHolds(b, req.listings[0]);
    MultisetsOfSets(Listed(Names(a, ConfigDir(service))), Names(b, ConfigDir(service)));
    forall p | p in plan.consulted ensures Same(a, b, p) {
      var i :| 0 <= i < |plan.consulted| && plan.consulted[i] == p;
      assert ReadHolds(b, req.checks[i]);
    }
    forall i | 0 <= i < |plan.writes| ensures Same(a, b, plan.writes[i].path) {
      assert ExpectationHolds(EtagAt(b, req.muts[i].path), req.muts[i]);
    }
  }

  // ---- the parts of an operation see the same ----

  lemma SamePeek(a: Files, b: Files, p: Path)
    requires Same(a, b, p)
    ensures Peek(a, p) == Peek(b, p) && (p in a <==> p in b)
  {
  }

  lemma OpensSame(ctx: Context, service: string, a: Files, b: Files)
    requires Open(ctx, service, a).Ok? && SchemasLoad(ctx.host, b)
    requires forall p :: p in BaseReads(service) ==> Same(a, b, p)
    ensures Open(ctx, service, b) == Ok(Open(ctx, service, a).value.(files := b))
  {
    assert SchemaYaml(service) in BaseReads(service) && SERVICES_YAML in BaseReads(service)
           && ENVIRONMENTS_YAML in BaseReads(service);
    SamePeek(a, b, SchemaYaml(service));
    SamePeek(a, b, SERVICES_YAML);
    SamePeek(a, b, ENVIRONMENTS_YAML);
  }

  lemma SameDocument(s: Session, b: Files, environment: string)
    requires Same(s.files, b, s.Home(environment))
    ensures Document(s.(files := b), environment) == Document(s, environment)
  {
    SamePeek(s.files, b, s.Home(environment));
  }

  lemma SameSchemaFields(s: Session, b: Files)
    requires Same(s.files, b, SchemaYaml(s.service))
    ensures SchemaFields(s.(files := b)) == SchemaFields(s)
  {
    SamePeek(s.files, b, SchemaYaml(s.service));
  }

  lemma SameValues(s: Session, b: Files, environment: string, changes: seq<Change>, expected: Expected)
    requires Same(s.files, b, s.Home(environment))
    ensures Values(s.(files := b), environment, changes, expected) == Values(s, environment, changes, expected)
  {
    SameDocument(s, b, environment);
  }

  lemma SameRewrite(s: Session, b: Files, keys: Keys, edit: Edit, touched: seq<string>, environment: string)
    requires Same(s.files, b, s.Home(environment))
    ensures Rewrite(s.(files := b), keys, edit, touched, environment) == Rewrite(s, keys, edit, touched, environment)
  {
    SameDocument(s, b, environment);
  }

  lemma {:induction false} SameRewriteAll(s: Session, b: Files, keys: Keys, edit: Edit, touched: seq<string>, envs: seq<string>)
    requires forall i :: 0 <= i < |envs| ==> Same(s.files, b, s.Home(envs[i]))
    ensures RewriteAll(s.(files := b), keys, edit, touched, envs) == RewriteAll(s, keys, edit, touched, envs)
  {
    if envs != [] {
      SameRewrite(s, b, keys, edit, touched, envs[0]);
      forall i | 0 <= i < |envs[1..]| ensures Same(s.files, b, s.Home(envs[1..][i])) {
        assert envs[1..][i] == envs[i + 1];
      }
      SameRewriteAll(s, b, keys, edit, touched, envs[1..]);
    }
  }

  lemma {:induction false} SameEncodeAll(s: Session, b: Files, envs: seq<string>, value: Config, keys: Keys, touched: seq<string>)
    ensures EncodeAll(s.(files := b), envs, value, keys, touched) == EncodeAll(s, envs, value, keys, touched)
  {
    if envs != [] {
      SameEncodeAll(s, b, envs[1..], value, keys, touched);
    }
  }

  /** Every environment's document is among the paths read. */
  lemma {:induction false} AllRead(start: seq<Path>, s: Session, envs: seq<string>)
    ensures forall p :: p in start ==> p in AddReads(start, s, envs)
    ensures forall i :: 0 <= i < |envs| ==> s.Home(envs[i]) in AddReads(start, s, envs)
    decreases |envs|
  {
    if envs != [] {
      var next := AddRead(start, s.Home(envs[0]));
      AllRead(next, s, envs[1..]);
      forall i | 0 <= i < |envs| ensures s.Home(envs[i]) in AddReads(start, s, envs) {
        if i > 0 {
          assert envs[1..][i - 1] == envs[i];
        }
      }
    }
  }

  lemma SameAddReads(start: seq<Path>, s: Session, b: Files, envs: seq<string>)
    ensures AddReads(start, s.(files := b), envs) == AddReads(start, s, envs)
    decreases |envs|
  {
    if envs != [] {
      SameAddReads(AddRead(start, s.Home(envs[0])), s, b, envs[1..]);
    }
  }

  // ---- each operation ----

  lemma CreateAgain(s: Session, b: Files, uid: Number, envs: seq<string>, schema: Content, defaults: seq<Field>)
    requires Create(s, uid, envs, schema, defaults).Ok?
    requires Covered(s.files, b, s.service, Create(s, uid, envs, schema, defaults).value)
    ensures Create(s.(files := b), uid, envs, schema, defaults) == Create(s, uid, envs, schema, defaults)
  {
    assert MayCreate(s.(files := b), uid, envs) == MayCreate(s, uid, envs);
    var product := ParseSchema(s.ctx.host, schema).value;
    SameEncodeAll(s, b, envs, Versioned(ToConfig(defaults), 1), product.keys, FieldKeys(defaults));
  }

  lemma WriteAgain(s: Session, b: Files, environment: string, changes: seq<Change>, expected: Expected)
    requires WriteValues(s, environment, changes, expected).Ok?
    requires Covered(s.files, b, s.service, WriteValues(s, environment, changes, expected).value)
    ensures WriteValues(s.(files := b), environment, changes, expected) == WriteValues(s, environment, changes, expected)
  {
    var plan := WriteValues(s, environment, changes, expected).value;
    assert s.Home(environment) in plan.consulted;
    SameValues(s, b, environment, changes, expected);
  }

  lemma RetireAgain(s: Session, b: Files, retiring: bool, force: bool)
    requires SetRetiring(s, retiring, force).Ok?
    requires Covered(s.files, b, s.service, SetRetiring(s, retiring, force).value)
    ensures SetRetiring(s.(files := b), retiring, true) == SetRetiring(s, retiring, force)
    ensures SetRetiring(s.(files := b), retiring, force) == SetRetiring(s, retiring, force)
            <==> (retiring && !force ==> ArchivedYaml(s.service) !in b)
  {
    assert SchemaYaml(s.service) in SetRetiring(s, retiring, force).value.consulted;
    SameSchemaFields(s, b);
  }

  lemma PromoteAgain(s: Session, b: Files, from: string, to: string, keys: seq<string>)
    requires Promote(s, from, to, keys).Ok?
    requires Covered(s.files, b, s.service, Promote(s, from, to, keys).value)
    ensures Promote(s.(files := b), from, to, keys) == Promote(s, from, to, keys)
  {
    var plan := Promote(s, from, to, keys).value;
    assert s.Home(from) in plan.consulted && s.Home(to) in plan.consulted;
    SameDocument(s, b, from);
    SameValues(s, b, to, Copied(Select(s, keys).value, Document(s, from).value), None);
  }

  lemma AddAgain(s: Session, b: Files, environment: string, drafts: seq<KeyDraft>, expected: Expected)
    requires AddKeys(s, environment, drafts, expected).Ok?
    requires Covered(s.files, b, s.service, AddKeys(s, environment, drafts, expected).value)
    ensures AddKeys(s.(files := b), environment, drafts, expected) == AddKeys(s, environment, drafts, expected)
  {
    var envs := Listed(s.Environments());
    var plan := AddKeys(s, environment, drafts, expected).value;
    AllRead(BaseReads(s.service), s, envs);
    assert SchemaYaml(s.service) in BaseReads(s.service);
    SameSchemaFields(s, b);
    assert environment in s.Environments();
    assert environment in envs;
    SamePeek(s.files, b, s.Home(environment));
    var fields := SchemaFields(s).value;
    var source := Stringify(Map(fields["keys" := Map(DeclaredKeys(fields) + Declarations(drafts))]));
    SameRewriteAll(s, b, ParseSchema(s.ctx.host, source).value.keys, Lay(environment, DraftDefaults(drafts), expected),
                   NamesOf(drafts), envs);
    SameAddReads(BaseReads(s.service), s, b, envs);
  }

  lemma DeleteAgain(s: Session, b: Files, selected: seq<string>, expected: Option<Files>)
    requires DeleteKeys(s, selected, expected).Ok?
    requires Covered(s.files, b, s.service, DeleteKeys(s, selected, expected).value)
    ensures DeleteKeys(s.(files := b), selected, None) == DeleteKeys(s, selected, expected)
    ensures DeleteKeys(s.(files := b), selected, expected) == DeleteKeys(s, selected, expected)
            <==> BaseMatches(expected, s.(files := b))
  {
    var envs := Listed(s.Environments());
    AllRead(BaseReads(s.service), s, envs);
    assert SchemaYaml(s.service) in BaseReads(s.service);
    SameSchemaFields(s, b);
    var keys, fields := Select(s, selected).value, SchemaFields(s).value;
    var source := Stringify(Map(fields["keys" := Map(DeclaredKeys(fields) - (set k | k in keys))]));
    SameRewriteAll(s, b, ParseSchema(s.ctx.host, source).value.keys, Drop(keys), keys, envs);
    SameAddReads(BaseReads(s.service), s, b, envs);
  }

  lemma ArchivedPaths(s: Session, b: Files, plan: Plan)
    requires Covered(s.files, b, s.service, plan)
    requires |plan.writes| >= 2 + |Listed(s.Environments())|
    requires plan.writes[1].path == ArchivedYaml(s.service)
    requires plan.writes[2..2 + |Listed(s.Environments())|] == Deletions(s, Listed(s.Environments()))
    ensures Same(s.files, b, ArchivedYaml(s.service))
    ensures forall e :: e in s.Environments() ==> Peek(s.files, s.Home(e)) == Peek(b, s.Home(e)) && s.Home(e) in b
  {
    var envs := Listed(s.Environments());
    forall e | e in s.Environments()
      ensures Peek(s.files, s.Home(e)) == Peek(b, s.Home(e)) && s.Home(e) in b
    {
      var i :| 0 <= i < |envs| && envs[i] == e;
      assert plan.writes[2 + i] == plan.writes[2..2 + |envs|][i];
      SamePeek(s.files, b, s.Home(e));
    }
  }

  lemma SameArchive(s: Session, b: Files, identity: Yaml, source: Content, at: string, author: string)
    requires Names(s.files, ConfigDir(s.service)) == Names(b, ConfigDir(s.service))
    requires forall e :: e in s.Environments() ==> Peek(s.files, s.Home(e)) == Peek(b, s.Home(e)) && s.Home(e) in b
    ensures ArchiveDocument(s.(files := b), identity, source, at, author) == ArchiveDocument(s, identity, source, at, author)
  {
    var d := s.(files := b);
    forall e | e in s.Environments() ensures s.Home(e) in s.files && s.files[s.Home(e)] == b[s.Home(e)] {
      assert Peek(s.files, s.Home(e)) == Peek(b, s.Home(e));
    }
    assert (map e | e in d.Environments() && d.Home(e) in d.files :: Source(d.files[d.Home(e)]))
        == (map e | e in s.Environments() && s.Home(e) in s.files :: Source(s.files[s.Home(e)]));
  }

  lemma ArchiveAgain(s: Session, b: Files, expected: Option<Files>, force: bool, at: string, author: string)
    requires Archive(s, expected, force, at, author).Ok?
    requires Covered(s.files, b, s.service, Archive(s, expected, force, at, author).value)
    ensures Archive(s.(files := b), None, force, at, author) == Archive(s, expected, force, at, author)
    ensures Archive(s.(files := b), expected, force, at, author) == Archive(s, expected, force, at, author)
            <==> BaseMatches(expected, s.(files := b))
  {
    var envs := Listed(s.Environments());
    var plan := Archive(s, expected, force, at, author).value;
    assert plan.writes[2..2 + |envs|] == Deletions(s, envs);
    ArchivedPaths(s, b, plan);
    assert SchemaYaml(s.service) in plan.consulted;
    SamePeek(s.files, b, SchemaYaml(s.service));
    SamePeek(s.files, b, ArchivedYaml(s.service));
    SameArchive(s, b, RequireProduct(s).value, Peek(s.files, SchemaYaml(s.service)).value, at, author);
    assert Deletions(s.(files := b), envs) == Deletions(s, envs);
  }

  lemma ActsAgain(s: Session, b: Files, op: Operation)
    requires Act(s, op).Ok? && Covered(s.files, b, s.service, Act(s, op).value)
    ensures Act(s.(files := b), Unguarded(op)) == Act(s, op)
    ensures Act(s.(files := b), op) == Act(s, op) <==> GuardHolds(op, s.service, b)
  {
    match op
    case CreateOp(uid, environments, schema, defaults) => CreateAgain(s, b, uid, environments, schema, defaults);
    case WriteOp(environment, changes, expected) => WriteAgain(s, b, environment, changes, expected);
    case RetireOp(retiring, force) => RetireAgain(s, b, retiring, force);
    case PromoteOp(from, to, keys) => PromoteAgain(s, b, from, to, keys);
    case AddOp(environment, drafts, expected) => AddAgain(s, b, environment, drafts, expected);
    case DeleteOp(keys, expected) => DeleteAgain(s, b, keys, expected);
    case ArchiveOp(expected, force, at, author) => ArchiveAgain(s, b, expected, force, at, author);
  }

  /**
   * If the database `b` at the moment of publication permits the writes computed from the snapshot
   * `a`, the operation without its out-of-read-set guards computes exactly those writes from `b`; and
   * the operation as it stands does so if and only if its guard holds of `b` and every product's
   * schema in `b` can be read.
   */
  lemma Serialisable(ctx: Context, service: string, op: Operation, a: Files, b: Files)
    requires Perform(ctx, service, op, a).Ok?
    requires Permitted(b, RequestOf(a, ctx.actor, service, Perform(ctx, service, op, a).value))
    ensures SchemasLoad(ctx.host, b) ==>
              Perform(ctx, service, Unguarded(op), b) == Perform(ctx, service, op, a)
    ensures Perform(ctx, service, op, b) == Perform(ctx, service, op, a)
            <==> GuardHolds(op, service, b) && SchemasLoad(ctx.host, b)
  {
    var plan := Perform(ctx, service, op, a).value;
    PermittedIsCovered(a, b, ctx.actor, service, plan);
    var s := Open(ctx, service, a).value;
    BaseIsRead(s, op);
    if SchemasLoad(ctx.host, b) {
      OpensSame(ctx, service, a, b);
      ActsAgain(s, b, op);
    }
  }

  lemma BaseIsRead(s: Session, op: Operation)
    requires Act(s, op).Ok?
    ensures forall p :: p in BaseReads(s.service) ==> p in Act(s, op).value.consulted
  {
    if op.AddOp? || op.DeleteOp? {
      AllRead(BaseReads(s.service), s, Listed(s.Environments()));
    }
  }

  /**
   * The archive consulted before retiring a product is not among the paths it reads: one that appears
   * between the snapshot and the commit is not noticed, though the operation would then refuse.
   */
  lemma RetirementMissesArchive(ctx: Context) returns (a: Files, b: Files)
    ensures
      var op := RetireOp(true, false);
      && Perform(ctx, "p", op, a).Ok?
      && Permitted(b, RequestOf(a, ctx.actor, "p", Perform(ctx, "p", op, a).value))
      && Perform(ctx, "p", op, b) == Err(ArchiveExists)
  {
    var schema := Stringify(Map(map["version" := Num(Int(1))]));
    var entry := Entry("p", Int(1), ["dev"]);
    var registry := Stringify(Map(map["version" := Num(Int(1)), "services" := List([entry])]));
    a := map[SchemaYaml("p") := schema, SERVICES_YAML := registry];
    b := a[ArchivedYaml("p") := schema];
    assert ParseKeys(ctx.host, map[]) == Some(map[]);
    assert ParseSchema(ctx.host, schema) == Some(Schema(map[], false));
    var op := RetireOp(true, false);
    var s := Open(ctx, "p", a).value;
    assert RequireProduct(s) == Ok(entry) by {
      assert Entries(s.registry) == Ok([entry]);
      assert HasField(entry, "name", Str("p"));
    }
    assert Identifier("p");
    var plan := Perform(ctx, "p", op, a).value;
    var req := RequestOf(a, ctx.actor, "p", plan);
    assert Names(a, ConfigDir("p")) == {} && Names(b, ConfigDir("p")) == {};
    assert Listed({}) == [];
    assert ListingHolds(b, req.listings[0]);
    assert Open(ctx, "p", b) == Ok(s.(files := b));
  }
}
