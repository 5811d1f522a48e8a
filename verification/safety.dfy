/** Each product operation keeps the tree consistent, and most keep it so after every single write. */
module ProductSafety {
  import opened Wrappers
  import opened Documents
  import opened Text
  import Storage
  import opened Requests
  import opened Schemas
  import opened Builder
  import opened Registry
  import opened Products
  import opened Consistency
  import opened Visibility

  /** A session opened on a consistent tree, by a legal product name. */
  ghost predicate Ready(s: Session) {
    && Consistent(s.ctx.host, s.files) && Identifier(s.service)
    && Open(s.ctx, s.service, s.files) == Ok(s)
  }

  lemma ReadySchema(s: Session)
    requires Ready(s) && s.schema.Some?
    ensures SchemaYaml(s.service) in s.files && SchemaFields(s).Ok?
    ensures KeysAt(s.ctx.host, s.files, s.service) == Some(s.Keys())
    ensures ParseSchema(s.ctx.host, Stringify(Map(SchemaFields(s).value))) == s.schema
    ensures ParseKeys(s.ctx.host, DeclaredKeys(SchemaFields(s).value)) == Some(s.Keys())
  {
    var c := s.files[SchemaYaml(s.service)];
    assert c.tree.Map?;
    assert RawKeys(c.tree) == Some(DeclaredKeys(SchemaFields(s).value));
  }

  // ---- retirement ----

  lemma RetireSafe(s: Session, retiring: bool, force: bool)
    requires Ready(s) && SetRetiring(s, retiring, force).Ok?
    ensures SafeAlong(s.ctx.host, s.files, SetRetiring(s, retiring, force).value.writes)
  {
    ReadySchema(s);
    var fields := SchemaFields(s).value;
    var w := SetRetiring(s, retiring, force).value.writes[0];
    SchemaMarked(s.ctx.host, fields, retiring);
    forall p | p in s.files && IsConfigPath(p) && p.dir.service == s.service
      ensures Identifier(p.name) && DocumentOk(s.ctx.host, s.Keys(), s.files[p])
    {
      assert ConfigFileOk(s.ctx.host, s.files, p);
    }
    PutSchemaKeeps(s.ctx.host, s.files, s.service, w.content.value);
    SafeOne(s.ctx.host, s.files, w);
  }

  // ---- values ----

  lemma {:induction false} ChangesKeepOut(config: Config, changes: seq<Change>)
    requires ApplyChanges(config, changes).Ok? && config.Keys !! METADATA
    ensures ApplyChanges(config, changes).value.Keys !! METADATA
    decreases |changes|
  {
    if changes != [] {
      ChangesKeepOut(config[changes[0].key := changes[0].value.value], changes[1..]);
    }
  }

  /** A rewritten document passes the schema it was checked against, and reads back as intended. */
  lemma RewrittenIsOk(s: Session, environment: string, current: Config, next: Config, keys: Keys, touched: seq<string>)
    requires Rewritten(s, environment, current, next, keys, touched).Ok?
    requires next.Keys !! METADATA && Accepts(s.ctx.host, keys, next)
    ensures
      var w := Rewritten(s, environment, current, next, keys, touched).value[0];
      && w.path == s.Home(environment) && w.content.Some? && DocumentOk(s.ctx.host, keys, w.content.value)
      && Resolve(s.ctx.host, w.content.value) == Some(Versioned(next, VersionOf(current) + 1))
      && VersionOf(Versioned(next, VersionOf(current) + 1)) == VersionOf(current) + 1
      && ConfigOnly(Versioned(next, VersionOf(current) + 1)) == next
  {
    var value := Versioned(next, VersionOf(current) + 1);
    assert "sops" in METADATA && "version" in METADATA;
    assert IsSafeInteger(value["version"].n);
    assert ((VersionOf(current) + 1) as real).Floor == VersionOf(current) + 1;
    VersionRoundTrip(current, next);
    EncodedIsOk(s, environment, value, keys);
  }

  lemma ValuesSafe(s: Session, environment: string, changes: seq<Change>, expected: Expected)
    requires Ready(s) && s.schema.Some? && Values(s, environment, changes, expected).Ok?
    ensures SafeAlong(s.ctx.host, s.files, Values(s, environment, changes, expected).value)
  {
    ReadySchema(s);
    var current := Document(s, environment).value;
    var next := ApplyChanges(ConfigOnly(current), changes).value;
    ChangesKeepOut(ConfigOnly(current), changes);
    var writes := Values(s, environment, changes, expected).value;
    if writes != [] {
      RewrittenIsOk(s, environment, current, next, s.Keys(), TouchedKeys(changes, ConfigOnly(current), next));
      PutConfigKeeps(s.ctx.host, s.files, s.Home(environment), writes[0].content.value);
      SafeOne(s.ctx.host, s.files, writes[0]);
    }
  }

  // ---- creation ----

  lemma ConfigKeepsKeys(host: Host, files: Files, p: Path, c: Content, service: string)
    requires IsConfigPath(p)
    ensures KeysAt(host, files[p := c], service) == KeysAt(host, files, service)
    ensures Peek(files[p := c], SERVICES_YAML) == Peek(files, SERVICES_YAML)
  {
  }

  lemma EncodeOneSafe(s: Session, files: Files, environment: string, value: Config, keys: Keys)
    requires Consistent(s.ctx.host, files) && KeysAt(s.ctx.host, files, s.service) == Some(keys)
    requires Encode(s, environment, value, keys).Ok? && Identifier(environment)
    requires "sops" !in value && Accepts(s.ctx.host, keys, ConfigOnly(value))
    ensures
      var after := files[s.Home(environment) := Encode(s, environment, value, keys).value];
      && Consistent(s.ctx.host, after) && KeysAt(s.ctx.host, after, s.service) == Some(keys)
      && Peek(after, SERVICES_YAML) == Peek(files, SERVICES_YAML)
  {
    var c := Encode(s, environment, value, keys).value;
    EncodedIsOk(s, environment, value, keys);
    PutConfigKeeps(s.ctx.host, files, s.Home(environment), c);
    ConfigKeepsKeys(s.ctx.host, files, s.Home(environment), c, s.service);
  }

  lemma {:induction false} EncodeAllSafe(s: Session, files: Files, envs: seq<string>, value: Config, keys: Keys, touched: seq<string>)
    requires Consistent(s.ctx.host, files) && KeysAt(s.ctx.host, files, s.service) == Some(keys)
    requires EncodeAll(s, envs, value, keys, touched).Ok?
    requires "sops" !in value && Accepts(s.ctx.host, keys, ConfigOnly(value))
    requires forall i :: 0 <= i < |envs| ==> Identifier(envs[i])
    ensures SafeAlong(s.ctx.host, files, EncodeAll(s, envs, value, keys, touched).value)
    ensures Kept(files, Applied(files, EncodeAll(s, envs, value, keys, touched).value))
    decreases |envs|
  {
    if envs != [] {
      var c := Encode(s, envs[0], value, keys).value;
      EncodeOneSafe(s, files, envs[0], value, keys);
      var after := files[s.Home(envs[0]) := c];
      EncodeAllSafe(s, after, envs[1..], value, keys, touched);
      var writes := EncodeAll(s, envs, value, keys, touched).value;
      assert writes[1..] == EncodeAll(s, envs[1..], value, keys, touched).value;
    }
  }

  /** No file is gone, and the registry is as it was. */
  ghost predicate Kept(before: Files, after: Files) {
    Peek(after, SERVICES_YAML) == Peek(before, SERVICES_YAML) && before.Keys <= after.Keys
  }

  lemma NewNames(s: Session, uid: Number, envs: seq<string>)
    requires Ready(s) && MayCreate(s, uid, envs).Ok?
    ensures GrantsOk(s.registry) && IsServiceEntry(Entry(s.service, uid, envs))
    ensures
      var after := WithEntries(s.registry, MayCreate(s, uid, envs).value + [Entry(s.service, uid, envs)]);
      && GrantsOk(after)
      && ServicesOf(after) == ServicesOf(s.registry) + [ServiceOf(Entry(s.service, uid, envs))]
      && ServiceOf(Entry(s.service, uid, envs)).name == s.service
  {
    EntriesOk(s.registry);
    var entries := Entries(s.registry).value;
    FindAnswers(entries, "name", Str(s.service));
    FindAnswers(entries, "uid", Num(uid));
    NewEntryOk(s.service, uid, envs);
    forall i | 0 <= i < |entries|
      ensures ServicesOf(s.registry)[i].name != s.service && ServicesOf(s.registry)[i].uid != uid.r.Floor
    {
      assert !HasField(entries[i], "name", Str(s.service)) && !HasField(entries[i], "uid", Num(uid));
      SameUid(entries[i], uid);
    }
    AppendKeepsGrants(s.registry, Entry(s.service, uid, envs));
  }

  lemma DeclaredAfter(registry: Yaml, after: Yaml, added: Service, files: Files)
    requires IsRegistryFile(registry) && IsRegistryFile(after) && ServicesOf(after) == ServicesOf(registry) + [added]
    requires forall n :: Declares(registry, n) ==> SchemaYaml(n) in files
    requires SchemaYaml(added.name) in files
    ensures forall n :: Declares(after, n) ==> SchemaYaml(n) in files
  {
    forall n | Declares(after, n) ensures SchemaYaml(n) in files {
      var i :| 0 <= i < |ServicesOf(after)| && ServicesOf(after)[i].name == n;
      if i < |ServicesOf(registry)| {
        assert ServicesOf(registry)[i].name == n;
      }
    }
  }

  lemma CreateSchemaStep(s: Session, schema: Content, w: Write)
    requires Ready(s) && s.Environments() == {} && ParseSchema(s.ctx.host, schema).Some?
    requires w.path == SchemaYaml(s.service) && w.content == Some(schema)
    ensures SafeAlong(s.ctx.host, s.files, [w])
    ensures
      var after := Applied(s.files, [w]);
      && Consistent(s.ctx.host, after) && Kept(s.files, after) && SchemaYaml(s.service) in after
      && KeysAt(s.ctx.host, after, s.service) == Some(ParseSchema(s.ctx.host, schema).value.keys)
  {
    assert forall p :: p in s.files && IsConfigPath(p) ==> p.name in Names(s.files, p.dir);
    PutSchemaKeeps(s.ctx.host, s.files, s.service, schema);
    SafeOne(s.ctx.host, s.files, w);
    AppliedOne(s.files, w);
  }

  lemma CreateRegistryStep(s: Session, uid: Number, envs: seq<string>, files: Files, w: Write)
    requires Ready(s) && MayCreate(s, uid, envs).Ok?
    requires Consistent(s.ctx.host, files) && Kept(s.files, files) && SchemaYaml(s.service) in files
    requires
      w.path == SERVICES_YAML
      && w.content == Some(Stringify(WithEntries(s.registry, Entries(s.registry).value + [Entry(s.service, uid, envs)])))
    ensures SafeAlong(s.ctx.host, files, [w])
  {
    NewNames(s, uid, envs);
    var registry := WithEntries(s.registry, Entries(s.registry).value + [Entry(s.service, uid, envs)]);
    DeclaredAfter(s.registry, registry, ServiceOf(Entry(s.service, uid, envs)), files);
    PutRegistryKeeps(s.ctx.host, files, registry);
    SafeOne(s.ctx.host, files, w);
  }

  lemma CreateWrites(s: Session, uid: Number, envs: seq<string>, schema: Content, value: Config, touched: seq<string>)
    requires Ready(s) && MayCreate(s, uid, envs).Ok? && ParseSchema(s.ctx.host, schema).Some?
    requires s.Environments() == {} && forall i :: 0 <= i < |envs| ==> Identifier(envs[i])
    requires "sops" !in value && Accepts(s.ctx.host, ParseSchema(s.ctx.host, schema).value.keys, ConfigOnly(value))
    requires EncodeAll(s, envs, value, ParseSchema(s.ctx.host, schema).value.keys, touched).Ok?
    ensures SafeAlong(s.ctx.host, s.files,
                      [Write(SchemaYaml(s.service), Some(schema), [s.service])]
                      + EncodeAll(s, envs, value, ParseSchema(s.ctx.host, schema).value.keys, touched).value
                      + [RegistryWrite(s, uid, envs)])
  {
    var keys := ParseSchema(s.ctx.host, schema).value.keys;
    var values := EncodeAll(s, envs, value, keys, touched).value;
    var first := Write(SchemaYaml(s.service), Some(schema), [s.service]);
    CreateSchemaStep(s, schema, first);
    var withSchema := Applied(s.files, [first]);
    EncodeAllSafe(s, withSchema, envs, value, keys, touched);
    SafeAtEnd(s.ctx.host, withSchema, values);
    CreateRegistryStep(s, uid, envs, Applied(withSchema, values), RegistryWrite(s, uid, envs));
    SafeThree(s.ctx.host, s.files, [first], values, [RegistryWrite(s, uid, envs)]);
  }

  function RegistryWrite(s: Session, uid: Number, envs: seq<string>): Write
    requires MayCreate(s, uid, envs).Ok?
  {
    Write(SERVICES_YAML,
          Some(Stringify(WithEntries(s.registry, Entries(s.registry).value + [Entry(s.service, uid, envs)]))), [s.service])
  }

  lemma MayCreateGives(s: Session, uid: Number, envs: seq<string>)
    requires MayCreate(s, uid, envs).Ok?
    ensures Entries(s.registry) == MayCreate(s, uid, envs) && s.Environments() == {}
    ensures forall i :: 0 <= i < |envs| ==> Identifier(envs[i])
  {
    assert forall i :: 0 <= i < |envs| ==> envs[i] in envs;
  }

  lemma CreateChecks(s: Session, uid: Number, envs: seq<string>, schema: Content, defaults: seq<Field>)
    requires Create(s, uid, envs, schema, defaults).Ok?
    ensures MayCreate(s, uid, envs).Ok? && ParseSchema(s.ctx.host, schema).Some?
    ensures
      var config, keys := ToConfig(defaults), ParseSchema(s.ctx.host, schema).value.keys;
      && Accepts(s.ctx.host, keys, config) && (forall k :: k in config ==> !Unsafe(keys, k))
      && EncodeAll(s, envs, Versioned(config, 1), keys, FieldKeys(defaults)).Ok?
      && Create(s, uid, envs, schema, defaults).value.writes
         == [Write(SchemaYaml(s.service), Some(schema), [s.service])]
            + EncodeAll(s, envs, Versioned(config, 1), keys, FieldKeys(defaults)).value
            + [Write(SERVICES_YAML,
                     Some(Stringify(WithEntries(s.registry, MayCreate(s, uid, envs).value + [Entry(s.service, uid, envs)]))),
                     [s.service])]
  {
  }

  /** What a successful creation has checked, and what it writes. */
  lemma CreateParts(s: Session, uid: Number, envs: seq<string>, schema: Content, defaults: seq<Field>)
    requires Create(s, uid, envs, schema, defaults).Ok?
    ensures MayCreate(s, uid, envs).Ok? && s.Environments() == {} && ParseSchema(s.ctx.host, schema).Some?
    ensures forall i :: 0 <= i < |envs| ==> Identifier(envs[i])
    ensures
      var value, keys := Versioned(ToConfig(defaults), 1), ParseSchema(s.ctx.host, schema).value.keys;
      && "sops" !in value && Accepts(s.ctx.host, keys, ConfigOnly(value))
      && EncodeAll(s, envs, value, keys, FieldKeys(defaults)).Ok?
      && Create(s, uid, envs, schema, defaults).value.writes
         == [Write(SchemaYaml(s.service), Some(schema), [s.service])]
            + EncodeAll(s, envs, value, keys, FieldKeys(defaults)).value
            + [RegistryWrite(s, uid, envs)]
  {
    CreateChecks(s, uid, envs, schema, defaults);
    MayCreateGives(s, uid, envs);
    PlainDefaults(ToConfig(defaults), ParseSchema(s.ctx.host, schema).value.keys);
  }

  /** Schema, then environments, then the registry: whatever is visible is complete. */
  lemma CreateSafe(s: Session, uid: Number, envs: seq<string>, schema: Content, defaults: seq<Field>)
    requires Ready(s) && Create(s, uid, envs, schema, defaults).Ok?
    ensures SafeAlong(s.ctx.host, s.files, Create(s, uid, envs, schema, defaults).value.writes)
  {
    CreateParts(s, uid, envs, schema, defaults);
    CreateWrites(s, uid, envs, schema, Versioned(ToConfig(defaults), 1), FieldKeys(defaults));
  }

  lemma PlainDefaults(config: Config, keys: Keys)
    requires forall k :: k in config ==> !Unsafe(keys, k)
    ensures "sops" !in Versioned(config, 1) && ConfigOnly(Versioned(config, 1)) == config
  {
    assert "sops" in METADATA && "version" in METADATA;
    assert config.Keys !! METADATA;
  }

  // ---- archiving ----

  lemma {:induction false} DeletionsSafe(s: Session, files: Files, envs: seq<string>)
    requires Consistent(s.ctx.host, files)
    ensures
      var writes := Deletions(s, envs);
      && SafeAlong(s.ctx.host, files, writes)
      && Peek(Applied(files, writes), SERVICES_YAML) == Peek(files, SERVICES_YAML)
      && (forall p :: p in Applied(files, writes) <==> p in files && forall e :: e in envs ==> p != s.Home(e))
      && (forall p :: p in Applied(files, writes) ==> Applied(files, writes)[p] == files[p])
    decreases |envs|
  {
    if envs != [] {
      RemoveConfigKeeps(s.ctx.host, files, s.Home(envs[0]));
      DeletionsSafe(s, files - {s.Home(envs[0])}, envs[1..]);
      assert Deletions(s, envs)[1..] == Deletions(s, envs[1..]);
      assert envs == [envs[0]] + envs[1..];
    }
  }

  lemma ArchiveRegistryStep(s: Session, w: Write)
    requires Ready(s)
    requires
      Entries(s.registry).Ok? && w.path == SERVICES_YAML
      && w.content == Some(Stringify(WithEntries(s.registry, Without(Entries(s.registry).value, s.service))))
    ensures SafeAlong(s.ctx.host, s.files, [w])
    ensures Consistent(s.ctx.host, Applied(s.files, [w])) && Applied(s.files, [w]) == s.files[SERVICES_YAML := w.content.value]
    ensures Ungranted(Applied(s.files, [w]), s.service)
  {
    var registry := WithEntries(s.registry, Without(Entries(s.registry).value, s.service));
    RemoveKeepsGrants(s.registry, s.service);
    forall n | Declares(registry, n) ensures SchemaYaml(n) in s.files {
      var i :| 0 <= i < |ServicesOf(registry)| && ServicesOf(registry)[i].name == n;
      assert ServicesOf(registry)[i] in ServicesOf(s.registry);
      assert Declares(s.registry, n);
    }
    PutRegistryKeeps(s.ctx.host, s.files, registry);
    SafeOne(s.ctx.host, s.files, w);
    AppliedOne(s.files, w);
  }

  /** The registry loads, and grants the product nothing. */
  ghost predicate Ungranted(files: Files, service: string) {
    var registry := RegistryDocument(Peek(files, SERVICES_YAML));
    registry.Some? && IsRegistryFile(registry.value) && !Declares(registry.value, service)
  }

  lemma ArchiveFileStep(host: Host, files: Files, service: string, w: Write)
    requires Consistent(host, files) && w.path == ArchivedYaml(service) && w.content.Some?
    ensures SafeAlong(host, files, [w]) && Consistent(host, Applied(files, [w]))
    ensures Applied(files, [w]) == files[w.path := w.content.value]
  {
    UnrelatedKeeps(host, files, w.path, w.content);
    SafeOne(host, files, w);
    AppliedOne(files, w);
  }

  lemma ArchiveSchemaStep(s: Session, before: Files, files: Files, w: Write)
    requires Consistent(s.ctx.host, files) && Ungranted(files, s.service)
    requires Names(before, ConfigDir(s.service)) == s.Environments()
    requires forall p :: p in files ==> p in before && forall e :: e in Listed(s.Environments()) ==> p != s.Home(e)
    requires w == Write(SchemaYaml(s.service), None, [s.service])
    ensures SafeAlong(s.ctx.host, files, [w])
  {
    NothingListed(s, before, files, Listed(s.Environments()));
    RemoveSchemaKeeps(s.ctx.host, files, s.service);
    SafeOne(s.ctx.host, files, w);
  }

  /** The registry first, the schema last: a product that is still declared is still complete. */
  lemma ArchiveSafe(s: Session, expected: Option<Files>, force: bool, at: string, author: string)
    requires Ready(s) && Archive(s, expected, force, at, author).Ok?
    ensures SafeAlong(s.ctx.host, s.files, Archive(s, expected, force, at, author).value.writes)
  {
    var writes := Archive(s, expected, force, at, author).value.writes;
    ArchiveWrites(s, writes[0], writes[1]);
    var last := Write(SchemaYaml(s.service), None, [s.service]);
    assert writes == [writes[0], writes[1]] + Deletions(s, Listed(s.Environments())) + [last];
  }

  lemma ArchiveWrites(s: Session, strike: Write, keep: Write)
    requires Ready(s) && Entries(s.registry).Ok? && strike.path == SERVICES_YAML
    requires strike.content == Some(Stringify(WithEntries(s.registry, Without(Entries(s.registry).value, s.service))))
    requires keep.path == ArchivedYaml(s.service) && keep.content.Some?
    ensures SafeAlong(s.ctx.host, s.files, [strike, keep] + Deletions(s, Listed(s.Environments()))
                                           + [Write(SchemaYaml(s.service), None, [s.service])])
  {
    var host, removals := s.ctx.host, Deletions(s, Listed(s.Environments()));
    ArchiveRegistryStep(s, strike);
    var hidden := Applied(s.files, [strike]);
    ArchiveFileStep(host, hidden, s.service, keep);
    var kept := Applied(hidden, [keep]);
    AppliedConcat(s.files, [strike], [keep]);
    SafeAlongConcat(host, s.files, [strike], [keep]);
    assert [strike] + [keep] == [strike, keep];
    DeletionsSafe(s, kept, Listed(s.Environments()));
    SafeAtEnd(host, kept, removals);
    assert Names(kept, ConfigDir(s.service)) == s.Environments();
    var last := Write(SchemaYaml(s.service), None, [s.service]);
    ArchiveSchemaStep(s, kept, Applied(kept, removals), last);
    SafeThree(host, s.files, [strike, keep], removals, [last]);
  }

  lemma NothingListed(s: Session, before: Files, after: Files, envs: seq<string>)
    requires forall p :: p in after ==> p in before && forall e :: e in envs ==> p != s.Home(e)
    requires forall e :: e in Names(before, ConfigDir(s.service)) ==> e in envs
    ensures Names(after, ConfigDir(s.service)) == {}
  {
    forall p | p in after ensures !(p.dir == ConfigDir(s.service) && p.yaml) {
      assert p.dir == ConfigDir(s.service) && p.yaml ==>
               p.name in Names(before, ConfigDir(s.service)) && p == s.Home(p.name);
    }
  }
}
