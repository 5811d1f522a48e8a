/** The invariant of the whole tree, and the single-file changes that keep it. */
module Consistency {
  import opened Wrappers
  import opened Documents
  import opened Storage
  import opened Requests
  import opened Schemas
  import opened Builder
  import opened Registry
  import opened Products

  // ---- the invariant ----

  /** A stored secret is ciphertext or empty. */
  predicate StoredSecretsHidden(keys: Keys, held: Config) {
    forall k :: k in held && k !in METADATA && k in keys && keys[k].secret ==>
      EmptySecret(held[k]) || IsCiphertext(held[k])
  }

  /** A configuration file its schema accepts, with no secret in the clear. */
  predicate DocumentOk(host: Host, keys: Keys, c: Content) {
    && Resolve(host, c).Some? && Accepts(host, keys, ConfigOnly(Resolve(host, c).value))
    && StoredSecretsHidden(keys, StoredFields(c).value)
  }

  predicate IsConfigPath(p: Path) {
    p.dir.ConfigDir? && p.yaml
  }

  /** The keys a product's schema file declares. */
  function KeysAt(host: Host, files: Files, service: string): Option<Keys> {
    if service == "" || SchemaYaml(service) !in files then None
    else
      var schema := ParseSchema(host, files[SchemaYaml(service)]);
      if schema.Some? then Some(schema.value.keys) else None
  }

  predicate ConfigFileOk(host: Host, files: Files, p: Path)
    requires p in files && IsConfigPath(p)
  {
    var keys := KeysAt(host, files, p.dir.service);
    Identifier(p.name) && keys.Some? && DocumentOk(host, keys.value, files[p])
  }

  ghost predicate ConfigsOk(host: Host, files: Files) {
    forall p :: p in files && IsConfigPath(p) ==> ConfigFileOk(host, files, p)
  }

  ghost predicate NamesDistinct(services: seq<Service>) {
    forall i, j :: 0 <= i < j < |services| ==> services[i].name != services[j].name
  }

  /** The registry loads, and names no product twice. */
  ghost predicate GrantsOk(registry: Yaml) {
    IsRegistryFile(registry) && UidsDistinct(ServicesOf(registry)) && NamesDistinct(ServicesOf(registry))
  }

  predicate Declares(registry: Yaml, service: string)
    requires IsRegistryFile(registry)
  {
    exists i :: 0 <= i < |ServicesOf(registry)| && ServicesOf(registry)[i].name == service
  }

  ghost predicate RegistryOk(files: Files) {
    var registry := RegistryDocument(Peek(files, SERVICES_YAML));
    && registry.Some? && GrantsOk(registry.value)
    && forall s :: Declares(registry.value, s) ==> SchemaYaml(s) in files
  }

  /** Every file the service serves from is readable, and they agree with each other. */
  ghost predicate Consistent(host: Host, files: Files) {
    RegistryOk(files) && SchemasLoad(host, files) && ConfigsOk(host, files)
  }

  // ---- single-file changes ----

  /** A configuration file's standing depends on itself and its product's schema. */
  lemma StillOk(host: Host, a: Files, b: Files, q: Path)
    requires IsConfigPath(q) && q in a && q in b && a[q] == b[q] && ConfigFileOk(host, a, q)
    requires Peek(a, SchemaYaml(q.dir.service)) == Peek(b, SchemaYaml(q.dir.service))
    ensures ConfigFileOk(host, b, q)
  {
    assert KeysAt(host, a, q.dir.service) == KeysAt(host, b, q.dir.service);
  }

  /** Nothing but configuration files changed, and those that did are in order. */
  lemma ConfigsKeep(host: Host, files: Files, after: Files)
    requires Consistent(host, files) && ConfigsOk(host, after)
    requires forall p :: !IsConfigPath(p) ==> Peek(files, p) == Peek(after, p)
    ensures Consistent(host, after)
  {
    assert Peek(after, SERVICES_YAML) == Peek(files, SERVICES_YAML);
    forall p | p in after && IsSchemaPath(p) ensures ParseSchema(host, after[p]).Some? {
      assert Peek(files, p) == Peek(after, p);
    }
    SchemasStay(files, after);
  }

  lemma SchemasStay(files: Files, after: Files)
    requires forall p :: !IsConfigPath(p) ==> Peek(files, p) == Peek(after, p)
    ensures forall s :: SchemaYaml(s) in files ==> SchemaYaml(s) in after
  {
    forall s | SchemaYaml(s) in files ensures SchemaYaml(s) in after {
      assert Peek(files, SchemaYaml(s)) == Peek(after, SchemaYaml(s));
    }
  }

  lemma NewConfigOk(host: Host, files: Files, p: Path, c: Content)
    requires IsConfigPath(p) && Identifier(p.name)
    requires KeysAt(host, files, p.dir.service).Some? && DocumentOk(host, KeysAt(host, files, p.dir.service).value, c)
    ensures ConfigFileOk(host, files[p := c], p)
  {
    assert KeysAt(host, files[p := c], p.dir.service) == KeysAt(host, files, p.dir.service);
  }

  lemma PutConfigKeeps(host: Host, files: Files, p: Path, c: Content)
    requires Consistent(host, files) && IsConfigPath(p) && Identifier(p.name)
    requires KeysAt(host, files, p.dir.service).Some? && DocumentOk(host, KeysAt(host, files, p.dir.service).value, c)
    ensures Consistent(host, files[p := c])
  {
    var after := files[p := c];
    NewConfigOk(host, files, p, c);
    forall q | q in after && IsConfigPath(q) ensures ConfigFileOk(host, after, q) {
      if q != p {
        StillOk(host, files, after, q);
      }
    }
    ConfigsKeep(host, files, after);
  }

  lemma RemoveConfigKeeps(host: Host, files: Files, p: Path)
    requires Consistent(host, files) && IsConfigPath(p)
    ensures Consistent(host, files - {p})
  {
    var after := files - {p};
    forall q | q in after && IsConfigPath(q) ensures ConfigFileOk(host, after, q) {
      StillOk(host, files, after, q);
    }
    ConfigsKeep(host, files, after);
  }

  /** A product's stored documents all pass `keys`. */
  ghost predicate StoredPass(host: Host, files: Files, service: string, keys: Keys) {
    forall p :: p in files && IsConfigPath(p) && p.dir.service == service ==>
      Identifier(p.name) && DocumentOk(host, keys, files[p])
  }

  lemma PutSchemaKeeps(host: Host, files: Files, service: string, c: Content)
    requires Consistent(host, files) && service != "" && ParseSchema(host, c).Some?
    requires StoredPass(host, files, service, ParseSchema(host, c).value.keys)
    ensures Consistent(host, files[SchemaYaml(service) := c])
  {
    var after := files[SchemaYaml(service) := c];
    forall q | q in after && IsConfigPath(q) ensures ConfigFileOk(host, after, q) {
      assert ConfigFileOk(host, files, q);
      if q.dir.service != service {
        assert SchemaYaml(q.dir.service) != SchemaYaml(service);
        assert KeysAt(host, after, q.dir.service) == KeysAt(host, files, q.dir.service);
      }
    }
    assert Peek(after, SERVICES_YAML) == Peek(files, SERVICES_YAML);
  }

  lemma RemoveSchemaKeeps(host: Host, files: Files, service: string)
    requires Consistent(host, files) && Names(files, ConfigDir(service)) == {}
    requires !Declares(RegistryDocument(Peek(files, SERVICES_YAML)).value, service)
    ensures Consistent(host, files - {SchemaYaml(service)})
  {
    var after := files - {SchemaYaml(service)};
    forall q | q in after && IsConfigPath(q) ensures ConfigFileOk(host, after, q) {
      assert ConfigFileOk(host, files, q);
      assert q.name in Names(files, q.dir);
      assert KeysAt(host, after, q.dir.service) == KeysAt(host, files, q.dir.service);
    }
    assert Peek(after, SERVICES_YAML) == Peek(files, SERVICES_YAML);
  }

  lemma PutRegistryKeeps(host: Host, files: Files, registry: Yaml)
    requires Consistent(host, files) && GrantsOk(registry)
    requires forall s :: Declares(registry, s) ==> SchemaYaml(s) in files
    ensures Consistent(host, files[SERVICES_YAML := Stringify(registry)])
  {
    var after := files[SERVICES_YAML := Stringify(registry)];
    forall q | q in after && IsConfigPath(q) ensures ConfigFileOk(host, after, q) {
      assert ConfigFileOk(host, files, q);
      assert KeysAt(host, after, q.dir.service) == KeysAt(host, files, q.dir.service);
    }
    assert Peek(after, SERVICES_YAML) == Some(Stringify(registry));
  }

  /** Files the invariant says nothing about: archives, flags, the promotion order. */
  predicate Unrelated(p: Path) {
    p != SERVICES_YAML && !IsSchemaPath(p) && !IsConfigPath(p)
  }

  lemma UnrelatedKeeps(host: Host, files: Files, p: Path, content: Option<Content>)
    requires Consistent(host, files) && Unrelated(p)
    ensures Consistent(host, Put(files, p, content))
  {
    var after := Put(files, p, content);
    forall q | q in after && IsConfigPath(q) ensures ConfigFileOk(host, after, q) {
      assert ConfigFileOk(host, files, q);
      assert KeysAt(host, after, q.dir.service) == KeysAt(host, files, q.dir.service);
    }
    assert Peek(after, SERVICES_YAML) == Peek(files, SERVICES_YAML);
  }

  // ---- documents ----

  /** An encoded document passes the schema its values passed, and reads back as what was encoded. */
  lemma EncodedIsOk(s: Session, environment: string, value: Config, keys: Keys)
    requires Encode(s, environment, value, keys).Ok? && "sops" !in value
    requires Accepts(s.ctx.host, keys, ConfigOnly(value))
    ensures DocumentOk(s.ctx.host, keys, Encode(s, environment, value, keys).value)
    ensures Resolve(s.ctx.host, Encode(s, environment, value, keys).value) == Some(value)
  {
    ResolveEncrypted(s.ctx.host, value, s.ctx.nonce(environment));
    var held := Encrypt(s.ctx.host, value, s.ctx.nonce(environment));
    forall k | k in held && k !in METADATA ensures k in value {
      assert k in held.Keys - {"sops"};
    }
  }

  /** Only the definitions of the keys a document holds matter to it. */
  lemma OkUnderAgreeing(host: Host, a: Keys, b: Keys, c: Content)
    requires DocumentOk(host, a, c) && forall k :: k in a && k in b ==> a[k] == b[k]
    requires Accepts(host, b, ConfigOnly(Resolve(host, c).value))
    ensures DocumentOk(host, b, c)
  {
    var held, doc := StoredFields(c).value, Resolve(host, c).value;
    forall k | k in held && k !in METADATA && k in b && b[k].secret
      ensures EmptySecret(held[k]) || IsCiphertext(held[k])
    {
      assert k in doc;
      assert k in ConfigOnly(doc);
    }
  }

  /** What the invariant says of one environment of a product. */
  lemma StoredDocument(s: Session, environment: string)
    requires Consistent(s.ctx.host, s.files) && s.Home(environment) in s.files
    requires s.schema.Some? && KeysAt(s.ctx.host, s.files, s.service) == Some(s.Keys())
    ensures Document(s, environment).Ok? && "sops" !in ConfigOnly(Document(s, environment).value)
    ensures DocumentOk(s.ctx.host, s.Keys(), s.files[s.Home(environment)])
    ensures Accepts(s.ctx.host, s.Keys(), ConfigOnly(Document(s, environment).value))
  {
    assert ConfigFileOk(s.ctx.host, s.files, s.Home(environment));
  }

  // ---- schemas before and after an edit ----

  lemma ParsedEntry(host: Host, raw: Config, key: string)
    requires ParseKeys(host, raw).Some? && key in raw
    ensures ParseKey(host, raw[key]) == Some(ParseKeys(host, raw).value[key])
  {
  }

  lemma PartParses(host: Host, part: Config, whole: Config)
    requires ParseKeys(host, whole).Some? && forall k :: k in part ==> k in whole && whole[k] == part[k]
    ensures ParseKeys(host, part).Some?
    ensures forall k :: k in part ==> ParseKeys(host, part).value[k] == ParseKeys(host, whole).value[k]
  {
    forall k | k in part ensures ParseKey(host, part[k]) == Some(ParseKeys(host, whole).value[k]) {
      ParsedEntry(host, whole, k);
    }
  }

  lemma JoinedParts(a: Keys, b: Keys, whole: Keys)
    requires whole.Keys == a.Keys + b.Keys && a.Keys !! b.Keys
    requires (forall k :: k in a ==> whole[k] == a[k]) && (forall k :: k in b ==> whole[k] == b[k])
    ensures whole == a + b
  {
  }

  lemma ParseKeysSplit(host: Host, a: Config, b: Config)
    requires ParseKeys(host, a).Some? && ParseKeys(host, a + b).Some? && a.Keys !! b.Keys
    ensures ParseKeys(host, b).Some? && ParseKeys(host, a + b).value == ParseKeys(host, a).value + ParseKeys(host, b).value
  {
    PartParses(host, a, a + b);
    PartParses(host, b, a + b);
    JoinedParts(ParseKeys(host, a).value, ParseKeys(host, b).value, ParseKeys(host, a + b).value);
  }

  lemma ParseKeysFewer(host: Host, a: Config, dropped: set<string>)
    requires ParseKeys(host, a).Some?
    ensures ParseKeys(host, a - dropped) == Some(ParseKeys(host, a).value - dropped)
  {
    assert (map k | k in a - dropped :: ParseKey(host, (a - dropped)[k]).value) == ParseKeys(host, a).value - dropped;
  }

  /** Replacing the `keys` of a readable schema leaves a schema that reads as the new keys. */
  lemma SchemaWithKeys(host: Host, fields: Config, keys: Config)
    requires ParseSchema(host, Stringify(Map(fields))).Some?
    ensures ParseSchema(host, Stringify(Map(fields["keys" := Map(keys)])))
            == if ParseKeys(host, keys).Some?
               then Some(Schema(ParseKeys(host, keys).value, RetiringOf(fields))) else None
  {
    var after := fields["keys" := Map(keys)];
    assert KnownVersion(after) == KnownVersion(fields);
    assert RetiringReadable(after) == RetiringReadable(fields) && RetiringOf(after) == RetiringOf(fields);
    assert RawKeys(Map(after)) == Some(keys);
  }

  /** Marking a product, or unmarking it, changes no key. */
  lemma SchemaMarked(host: Host, fields: Config, retiring: bool)
    requires ParseSchema(host, Stringify(Map(fields))).Some?
    ensures
      var next := if retiring then fields["retiring" := Bool(true)] else fields - {"retiring"};
      ParseSchema(host, Stringify(Map(next)))
      == Some(Schema(ParseSchema(host, Stringify(Map(fields))).value.keys, retiring))
  {
    var next := if retiring then fields["retiring" := Bool(true)] else fields - {"retiring"};
    assert KnownVersion(next) == KnownVersion(fields);
    assert RawKeys(Map(next)) == RawKeys(Map(fields));
  }
}
