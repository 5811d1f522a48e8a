/** Concrete trees and operations that show where the product operations promise less than they seem to. */
module ProductExamples {
  import opened Wrappers
  import opened Documents
  import opened Text
  import opened Storage
  import opened Requests
  import opened Schemas
  import opened Builder
  import opened Registry
  import opened Products
  import opened Serialisability
  import opened Consistency
  import opened Visibility
  import opened ProductSafety
  import opened KeyAdditions
  import opened KeyDecisions

  // ---- one small product ----

  const GRANT := Entry("p", Int(1), ["dev"])
  const REGISTRY := Map(map["version" := Num(Int(1)), "services" := List([GRANT])])
  const NO_KEYS := Stringify(SchemaTree(map[]))

  lemma GrantIsEntry()
    ensures IsRegistryFile(REGISTRY) && |ServicesOf(REGISTRY)| == 1 && ServicesOf(REGISTRY)[0].name == "p"
    ensures Entries(REGISTRY) == Ok([GRANT]) && Find([GRANT], "name", Str("p")) == Ok(Some(GRANT))
  {
    SegmentsMakeNamespace("p", "dev");
    assert (1 as real).Floor == 1;
    assert GRANT.fields["namespaces"] == List([Str(Namespace("p", "dev"))]);
    assert IsServiceEntry(GRANT);
    assert HasField(GRANT, "name", Str("p"));
  }

  // ---- the digest reaches further than the read set ----

  const RETIRING := Stringify(Map(map["version" := Num(Int(1)), "retiring" := Bool(true)]))
  const NOTES := Path(ConfigDir("p"), "notes", false)
  const WITH_NOTES: Files := map[SchemaYaml("p") := RETIRING, SERVICES_YAML := Stringify(REGISTRY), NOTES := Unparsable("n")]

  lemma NotesAreNoYaml()
    ensures Names(WITH_NOTES, ConfigDir("p")) == {} && Names(WITH_NOTES - {NOTES}, ConfigDir("p")) == {}
    ensures Listed({}) == []
  {
  }

  lemma RetiringParses(host: Host)
    ensures ParseSchema(host, RETIRING) == Some(Schema(map[], true))
  {
    assert ParseKeys(host, map[]) == Some(map[]);
  }

  lemma NotesSession(ctx: Context, files: Files) returns (s: Session)
    requires files == WITH_NOTES || files == WITH_NOTES - {NOTES}
    ensures Open(ctx, "p", files) == Ok(s) && s.files == files && s.registry == REGISTRY && s.service == "p"
    ensures s.schema == Some(Schema(map[], true)) && s.ctx == ctx
    ensures RequireProduct(s) == Ok(GRANT)
  {
    RetiringParses(ctx.host);
    GrantIsEntry();
    s := Open(ctx, "p", files).value;
  }

  lemma NotesArchived(s: Session, expected: Option<Files>, at: string, author: string)
    requires s.files == WITH_NOTES && s.registry == REGISTRY && s.service == "p" && s.schema == Some(Schema(map[], true))
    requires expected == Some(ProductBase(WITH_NOTES, "p"))
    ensures Archive(s, expected, true, at, author).Ok?
    ensures |Archive(s, expected, true, at, author).value.writes| == 3
  {
    GrantIsEntry();
    NotesAreNoYaml();
    assert RequireProduct(s) == Ok(GRANT);
    assert Entries(s.registry).value == [GRANT];
    assert Null !in [GRANT];
  }

  /** What is archived, and what commit is asked to check. */
  lemma NotesPlan(s: Session, expected: Option<Files>, at: string, author: string)
    requires s.files == WITH_NOTES && s.registry == REGISTRY && s.service == "p" && s.schema == Some(Schema(map[], true))
    requires expected == Some(ProductBase(WITH_NOTES, "p"))
    ensures Archive(s, expected, true, at, author).Ok?
    ensures
      var plan := Archive(s, expected, true, at, author).value;
      && (forall w :: w in plan.writes ==> w.path != NOTES)
      && (forall p :: p in plan.consulted ==> p != NOTES)
  {
    NotesArchived(s, expected, at, author);
  }

  lemma NotesRefused(t: Session, expected: Option<Files>, at: string, author: string)
    requires t.files == WITH_NOTES - {NOTES} && t.service == "p" && expected == Some(ProductBase(WITH_NOTES, "p"))
    ensures Archive(t, expected, true, at, author) == Err(ProductChanged)
  {
    assert NOTES in ProductBase(WITH_NOTES, "p") && NOTES !in ProductBase(t.files, "p");
  }

  /** Computed from `a` the operation is accepted at `b`, where, run again, it refuses. */
  ghost predicate Misses(a: Files, b: Files, actor: string, service: string, first: Result<Plan, Refusal>,
                         again: Result<Plan, Refusal>, refusal: Refusal) {
    first.Ok? && Permitted(b, RequestOf(a, actor, service, first.value)) && again == Err(refusal)
  }

  lemma PerformArchives(ctx: Context, files: Files, s: Session, expected: Option<Files>, at: string, author: string)
    requires Open(ctx, "p", files) == Ok(s)
    ensures Perform(ctx, "p", ArchiveOp(expected, true, at, author), files) == Archive(s, expected, true, at, author)
  {
    assert Identifier("p");
  }

  lemma ArchivesMiss(s: Session, t: Session, expected: Option<Files>, at: string, author: string)
    requires s.files == WITH_NOTES && s.registry == REGISTRY && s.service == "p" && s.schema == Some(Schema(map[], true))
    requires t.files == WITH_NOTES - {NOTES} && t.service == "p" && expected == Some(ProductBase(WITH_NOTES, "p"))
    ensures Misses(s.files, t.files, s.ctx.actor, "p", Archive(s, expected, true, at, author),
                   Archive(t, expected, true, at, author), ProductChanged)
  {
    NotesPlan(s, expected, at, author);
    NotesRefused(t, expected, at, author);
    NotesAreNoYaml();
    UncheckedIsPermitted(s.files, t.files, s.ctx.actor, "p", Archive(s, expected, true, at, author).value, NOTES);
  }

  lemma UncheckedIsPermitted(a: Files, b: Files, actor: string, service: string, plan: Plan, p: Path)
    requires b == a - {p} && !p.yaml && Names(a, ConfigDir(service)) == {}
    requires forall w :: w in plan.writes ==> w.path != p
    requires forall q :: q in plan.consulted ==> q != p
    ensures Permitted(b, RequestOf(a, actor, service, plan))
  {
    var req := RequestOf(a, actor, service, plan);
    forall i | 0 <= i < |req.muts| ensures ExpectationHolds(EtagAt(b, req.muts[i].path), req.muts[i]) {
      assert plan.writes[i] in plan.writes;
    }
    forall i | 0 <= i < |req.checks| ensures ReadHolds(b, req.checks[i]) {
      assert plan.consulted[i] in plan.consulted;
    }
    assert Names(b, ConfigDir(service)) == {} && Listed({}) == [];
    assert ListingHolds(b, req.listings[0]);
  }

  /**
   * The digest an archiving is asked to match covers files of the product's directory that are not YAML;
   * the commit checks none of them. One that goes between the snapshot and the commit is not noticed,
   * though the operation would then refuse.
   */
  lemma ArchivingMissesDigest(ctx: Context, at: string, author: string) returns (a: Files, b: Files)
    ensures
      var op := ArchiveOp(Some(ProductBase(a, "p")), true, at, author);
      Misses(a, b, ctx.actor, "p", Perform(ctx, "p", op, a), Perform(ctx, "p", op, b), ProductChanged)
  {
    a, b := WITH_NOTES, WITH_NOTES - {NOTES};
    var expected := Some(ProductBase(a, "p"));
    var s := NotesSession(ctx, a);
    var t := NotesSession(ctx, b);
    PerformArchives(ctx, a, s, expected, at, author);
    PerformArchives(ctx, b, t, expected, at, author);
    ArchivesMiss(s, t, expected, at, author);
  }

  // ---- an addition that passes through an inconsistent tree ----

  const DRAFT := KeyDraft("A", "string", false, [], "", None, None, Some(Str("x")))
  const ORDER := Stringify(Map(map["order" := List([Str("dev")])]))
  const STORED := Stringify(Map(map["version" := Num(Int(1))]))
  const WITH_DEV: Files := map[SchemaYaml("p") := NO_KEYS, SERVICES_YAML := Stringify(REGISTRY),
                               ENVIRONMENTS_YAML := ORDER, ConfigYaml("p", "dev") := STORED]

  lemma DraftIsSound(host: Host)
    ensures NameOf(DRAFT) == "A" && Clean(host, [DRAFT]) && AllSound(host, [DRAFT])
    ensures DraftDefaults([DRAFT]) == map["A" := Str("x")]
  {
    assert Trim("A") == "A" && Choices(DRAFT) == [];
    forall i: nat, flaw | i < |[DRAFT]| ensures !Has(host, [DRAFT][i], NamesBefore([DRAFT], i), flaw) {
    }
    assert [DRAFT][..0] == [];
  }

  lemma NoKeysParse(host: Host)
    ensures ParseSchema(host, NO_KEYS) == Some(Schema(map[], false))
  {
    TreeParses(host, map[]);
    assert ParseKeys(host, map[]) == Some(map[]);
  }

  lemma StoredIsOk(host: Host)
    ensures Resolve(host, STORED) == Some(map["version" := Num(Int(1))]) && DocumentOk(host, map[], STORED)
    ensures ConfigOnly(map["version" := Num(Int(1))]) == map[]
  {
    assert "version" in METADATA;
  }

  lemma DevIsConsistent(host: Host)
    ensures Consistent(host, WITH_DEV)
  {
    GrantIsEntry();
    NoKeysParse(host);
    StoredIsOk(host);
    forall p | p in WITH_DEV && IsConfigPath(p) ensures ConfigFileOk(host, WITH_DEV, p) {
      assert p == ConfigYaml("p", "dev");
    }
  }

  lemma DevSession(ctx: Context) returns (s: Session)
    ensures Ready(s) && Open(ctx, "p", WITH_DEV) == Ok(s) && s.files == WITH_DEV && s.service == "p" && s.ctx == ctx
    ensures s.schema == Some(Schema(map[], false)) && s.order == [Str("dev")] && RequireProduct(s) == Ok(GRANT)
  {
    GrantIsEntry();
    NoKeysParse(ctx.host);
    DevIsConsistent(ctx.host);
    s := Open(ctx, "p", WITH_DEV).value;
    assert Only([Str("dev")]) == [Str("dev")];
    assert Identifier("p");
  }

  lemma DevGrows(s: Session)
    requires s.files == WITH_DEV && s.service == "p"
    ensures Grow(s, [DRAFT]).Ok? && Grow(s, [DRAFT]).value.keys.Keys == {"A"}
    ensures Grow(s, [DRAFT]).value.keys["A"] == Asked(DRAFT)
  {
    DraftIsSound(s.ctx.host);
    BuiltSchemaParses(s.ctx.host, [DRAFT]);
    var fields := SchemaFields(s).value;
    var raw := Declarations([DRAFT]);
    assert DeclaredKeys(fields) == map[];
    assert map[] + raw == raw;
    assert fields["keys" := Map(raw)] == SchemaTree(raw).fields;
    GrowIs(s, [DRAFT], fields, Stringify(SchemaTree(raw)));
    var keys := ParseSchema(s.ctx.host, Stringify(SchemaTree(raw))).value.keys;
    assert NameOf([DRAFT][0]) in keys && keys[NameOf([DRAFT][0])] == Asked([DRAFT][0]);
  }

  lemma DevRewrites(s: Session, keys: Keys)
    requires s.files == WITH_DEV && s.service == "p" && keys.Keys == {"A"} && keys["A"] == Asked(DRAFT)
    ensures RewriteAll(s, keys, Lay("dev", map["A" := Str("x")], None), ["A"], ["dev"]).Ok?
  {
    StoredIsOk(s.ctx.host);
    assert Identifier("dev");
    assert Document(s, "dev") == Ok(map["version" := Num(Int(1))]);
    var next: Config := map[] + map["A" := Str("x")];
    assert Accepts(s.ctx.host, keys, next);
    assert (2 as real).Floor == 2;
    var versioned := Versioned(next, 2);
    assert SecretsHidden(keys, versioned, Encrypt(s.ctx.host, versioned, s.ctx.nonce("dev")));
    assert Rewrite(s, keys, Lay("dev", map["A" := Str("x")], None), ["A"], "dev").Ok?;
    assert ["dev"][1..] == [];
  }

  lemma DevAdds(s: Session)
    requires s.files == WITH_DEV && s.service == "p" && s.order == [Str("dev")] && RequireProduct(s) == Ok(GRANT)
    ensures AddKeys(s, "dev", [DRAFT], None).Ok?
  {
    DevGrows(s);
    DraftIsSound(s.ctx.host);
    assert NamesOf([DRAFT]) == ["A"];
    assert s.Environments() == {"dev"} by {
      assert ConfigYaml("p", "dev") in WITH_DEV;
    }
    AscendingIsUnique(Listed({"dev"}), ["dev"]);
    DevRewrites(s, Grow(s, [DRAFT]).value.keys);
    DevIsAdded(s);
  }

  lemma DevIsAdded(s: Session)
    requires s.files == WITH_DEV && s.service == "p" && s.order == [Str("dev")] && RequireProduct(s).Ok?
    requires Grow(s, [DRAFT]).Ok?
    requires RewriteAll(s, Grow(s, [DRAFT]).value.keys, Lay("dev", DraftDefaults([DRAFT]), None), NamesOf([DRAFT]),
                        Listed(s.Environments())).Ok?
    ensures AddKeys(s, "dev", [DRAFT], None).Ok?
  {
    AddRefuses(s, "dev", [DRAFT], None);
  }

  /** A product with no keys is given one with a default: accepted, and inconsistent after its first write. */
  lemma AdditionPassesThroughBroken(ctx: Context) returns (s: Session)
    ensures Ready(s) && AddKeys(s, "dev", [DRAFT], None).Ok?
    ensures !SafeAlong(ctx.host, s.files, AddKeys(s, "dev", [DRAFT], None).value.writes)
  {
    s := DevSession(ctx);
    DraftIsSound(ctx.host);
    DevAdds(s);
    assert "A" in DraftDefaults([DRAFT]);
    AddSafeIff(s, "dev", [DRAFT], None);
  }
}
