/** The product operations: what each reads from a snapshot, what it refuses, and what it asks to write. */
module Products {
  import opened Wrappers
  import opened Documents
  import opened Text
  import opened Requests
  import opened Schemas
  import opened Builder
  import opened Registry
  import Storage

  datatype Refusal =
    | InvalidName | ReservedProduct | BadUid | NameTaken | UidTaken | DataExists | BadEnvironments
    | InvalidDefaults | UnsafeDefaults | UnknownProduct | Undeclared | InvalidEnvironment | FileChanged
    | MetadataEdited | InvalidValues | VersionExhausted | NotEncrypted | NotNext | NothingSelected
    | UnknownKey | SecretPromoted | NotSet | NotLowest | NothingAdded | InvalidDrafts | AlreadyDeclared
    | NoFile | Orphans | ProductChanged | NotRetiring | ArchiveExists | Unreadable

  /** One entry of a values object; an absent value is JavaScript's `undefined`. */
  datatype Change = Change(key: string, value: Option<Yaml>)
  datatype Field = Field(key: string, value: Yaml)
  datatype Write = Write(path: Path, content: Option<Content>, keys: seq<string>)
  /** What an operation hands to `commit`: its writes in visibility order, and the paths it read. */
  datatype Plan = Plan(writes: seq<Write>, consulted: seq<Path>)
  type Expected = Option<Option<Etag>>

  // ---- small parts ----

  /** What a product or environment may be called. */
  predicate Identifier(s: string) {
    s != "" && 'a' <= s[0] <= 'z' && forall i :: 0 < i < |s| ==> IsLowerOrDigit(s[i]) || s[i] == '-'
  }

  function Peek(files: Files, p: Path): Option<Content> {
    if p in files then Some(files[p]) else None
  }

  function Only(items: seq<Yaml>): seq<Yaml> {
    if items == [] then []
    else (if IsString(items[0]) then [items[0]] else []) + Only(items[1..])
  }

  /** The declared environments, in promotion order. */
  function OrderOf(c: Option<Content>): seq<Yaml> {
    if c.Some? && c.value.Text? && c.value.tree.Map? && "order" in c.value.tree.fields
       && c.value.tree.fields["order"].List?
    then Only(c.value.tree.fields["order"].items)
    else []
  }

  function IndexOf(order: seq<Yaml>, v: Yaml): Option<nat> {
    if order == [] then None
    else if order[0] == v then Some(0)
    else
      var rest := IndexOf(order[1..], v);
      if rest.Some? then Some(rest.value + 1) else None
  }

  predicate IsNext(order: seq<Yaml>, from: string, to: string) {
    var i := IndexOf(order, Str(from));
    i.Some? && i.value + 1 < |order| && order[i.value + 1] == Str(to)
  }

  /** `[...new Set(keys)]`. */
  function Dedupe(keys: seq<string>): (r: seq<string>)
    ensures forall k :: k in r <==> k in keys
    ensures forall i, j :: 0 <= i < j < |r| ==> r[i] != r[j]
  {
    if keys == [] then []
    else
      var init := Dedupe(keys[..|keys| - 1]);
      var last := keys[|keys| - 1];
      assert keys == keys[..|keys| - 1] + [last];
      if last in init then init else init + [last]
  }

  // ---- the registry document ----

  const EMPTY_REGISTRY := Map(map["version" := Num(Int(1)), "services" := List([])])

  function RegistryDocument(c: Option<Content>): Option<Yaml> {
    if c.None? then Some(EMPTY_REGISTRY)
    else if c.value.Text? then Some(c.value.tree)
    else None
  }

  function Entries(registry: Yaml): Result<seq<Yaml>, Refusal> {
    if registry.Map? && "services" in registry.fields && registry.fields["services"].List? then
      Ok(registry.fields["services"].items)
    else Err(Unreadable)
  }

  predicate HasField(entry: Yaml, key: string, value: Yaml) {
    entry.Map? && key in entry.fields && entry.fields[key] == value
  }

  /** `services.find(…)`: a null entry before the answer has no fields to look at. */
  function Find(entries: seq<Yaml>, key: string, value: Yaml): (r: Result<Option<Yaml>, Refusal>)
    ensures r.Err? ==> r.error == Unreadable
  {
    if entries == [] then Ok(None)
    else if entries[0].Null? then Err(Unreadable)
    else if HasField(entries[0], key, value) then Ok(Some(entries[0]))
    else Find(entries[1..], key, value)
  }

  /** `services.filter((entry) => entry.name !== name)`. */
  function Without(entries: seq<Yaml>, name: string): seq<Yaml> {
    if entries == [] then []
    else (if HasField(entries[0], "name", Str(name)) then [] else [entries[0]]) + Without(entries[1..], name)
  }

  function WithEntries(registry: Yaml, entries: seq<Yaml>): Yaml
    requires registry.Map?
  {
    Map(registry.fields["services" := List(entries)])
  }

  function Entry(service: string, uid: Number, environments: seq<string>): Yaml {
    Map(map["name" := Str(service), "uid" := Num(uid),
            "namespaces" := Strings(seq(|environments|, i requires 0 <= i < |environments| => Namespace(service, environments[i])))])
  }

  // ---- one operation's view of the database ----

  /** Who acts, and what the operation takes from outside the database. */
  datatype Context = Context(host: Host, actor: string, nonce: string -> nat)

  datatype Session = Session(ctx: Context, service: string, files: Files,
                             schema: Option<Schema>, registry: Yaml, order: seq<Yaml>)
  {
    function Keys(): Keys {
      if schema.Some? then schema.value.keys else map[]
    }

    predicate IsSecret(key: string) {
      key in Keys() && Keys()[key].secret
    }

    function Home(environment: string): Path { ConfigYaml(service, environment) }

    function Environments(): set<string> { Names(files, ConfigDir(service)) }
  }

  /** `new ProductMutation`: every product schema must read, not only this one's. */
  ghost function Open(ctx: Context, service: string, files: Files): Result<Session, Refusal> {
    var registry := RegistryDocument(Peek(files, SERVICES_YAML));
    if !SchemasLoad(ctx.host, files) || registry.None? then Err(Unreadable)
    else
      var source := Peek(files, SchemaYaml(service));
      Ok(Session(ctx, service, files, if source.Some? then ParseSchema(ctx.host, source.value) else None,
                 registry.value, OrderOf(Peek(files, ENVIRONMENTS_YAML))))
  }

  function BaseReads(service: string): seq<Path> {
    [SchemaYaml(service), SERVICES_YAML, ENVIRONMENTS_YAML]
  }

  function AddRead(consulted: seq<Path>, p: Path): seq<Path> {
    if p in consulted then consulted else consulted + [p]
  }

  function AddReads(consulted: seq<Path>, s: Session, environments: seq<string>): seq<Path>
    decreases |environments|
  {
    if environments == [] then consulted
    else AddReads(AddRead(consulted, s.Home(environments[0])), s, environments[1..])
  }

  /** `productBase`: a digest of every file the product is made of, so equal exactly when they are. */
  function ProductBase(files: Files, service: string): Files {
    map p | p in files && (p in BaseReads(service) || p.dir == ConfigDir(service)) :: files[p]
  }

  predicate BaseMatches(expected: Option<Files>, s: Session) {
    expected.Some? ==> expected.value == ProductBase(s.files, s.service)
  }

  function RequireProduct(s: Session): Result<Yaml, Refusal> {
    var entries :- Entries(s.registry);
    var identity :- Find(entries, "name", Str(s.service));
    if identity.None? || s.schema.None? then Err(UnknownProduct) else Ok(identity.value)
  }

  /** The fields of the product's own schema file. */
  function SchemaFields(s: Session): Result<Config, Refusal> {
    var source := Peek(s.files, SchemaYaml(s.service));
    if source.None? then Err(UnknownProduct)
    else if source.value.Text? && source.value.tree.Map? then Ok(source.value.tree.fields)
    else Err(Unreadable)
  }

  function DeclaredKeys(fields: Config): Config {
    if "keys" in fields && fields["keys"].Map? then fields["keys"].fields else map[]
  }

  function Select(s: Session, keys: seq<string>): Result<seq<string>, Refusal> {
    var selected := Dedupe(keys);
    var _ :- Need(selected != [], NothingSelected);
    var _ :- Need(forall k :: k in selected ==> k in s.Keys(), UnknownKey);
    Ok(selected)
  }

  function Document(s: Session, environment: string): Result<Config, Refusal> {
    var _ :- Need(Identifier(environment), InvalidEnvironment);
    var source := Peek(s.files, s.Home(environment));
    if source.None? then Ok(map[])
    else
      var doc := Resolve(s.ctx.host, source.value);
      if doc.Some? then Ok(doc.value) else Err(Unreadable)
  }

  predicate EmptySecret(v: Yaml) {
    v.Null? || v == Str("")
  }

  predicate SecretHidden(plain: Yaml, held: Yaml) {
    (EmptySecret(plain) && EmptySecret(held)) || IsCiphertext(held)
  }

  /** Every secret of the document is ciphertext, or empty, in its encrypted form. */
  predicate SecretsHidden(keys: Keys, plain: Config, held: Config) {
    forall k :: k in plain && k !in METADATA && k in keys && keys[k].secret ==>
      k in held && SecretHidden(plain[k], held[k])
  }

  function Encode(s: Session, environment: string, value: Config, keys: Keys): Result<Content, Refusal> {
    var _ :- Need("version" in value && value["version"].Num? && IsSafeInteger(value["version"].n), VersionExhausted);
    var encrypted := Encrypt(s.ctx.host, value, s.ctx.nonce(environment));
    var _ :- Need(SecretsHidden(keys, value, encrypted), NotEncrypted);
    Ok(Stringify(Map(encrypted)))
  }

  // ---- setting values ----

  function ApplyChanges(config: Config, changes: seq<Change>): (r: Result<Config, Refusal>)
    ensures r.Err? ==> r.error == MetadataEdited
    decreases |changes|
  {
    if changes == [] then Ok(config)
    else if changes[0].key in METADATA || changes[0].value.None? then Err(MetadataEdited)
    else ApplyChanges(config[changes[0].key := changes[0].value.value], changes[1..])
  }

  function KeysOf(changes: seq<Change>): seq<string> {
    seq(|changes|, i requires 0 <= i < |changes| => changes[i].key)
  }

  function Differing(changes: seq<Change>, before: Config, after: Config): seq<string> {
    if changes == [] then []
    else (if At(before, changes[0].key) != At(after, changes[0].key) then [changes[0].key] else [])
         + Differing(changes[1..], before, after)
  }

  function TouchedKeys(changes: seq<Change>, before: Config, after: Config): seq<string> {
    if Differing(changes, before, after) == [] then KeysOf(changes) else Differing(changes, before, after)
  }

  /** The document one edit leaves behind, one version on. */
  function Rewritten(s: Session, environment: string, current: Config, next: Config, keys: Keys, touched: seq<string>)
    : Result<seq<Write>, Refusal>
  {
    var content :- Encode(s, environment, Versioned(next, VersionOf(current) + 1), keys);
    Ok([Write(s.Home(environment), Some(content), touched)])
  }

  function Values(s: Session, environment: string, changes: seq<Change>, expected: Expected): Result<seq<Write>, Refusal> {
    var _ :- Need(Str(environment) in s.order, Undeclared);
    var path := s.Home(environment);
    var _ :- Need(expected.Some? ==> expected.value == EtagAt(s.files, path), FileChanged);
    var current :- Document(s, environment);
    var next :- ApplyChanges(ConfigOnly(current), changes);
    var _ :- Need(s.schema.Some? && Accepts(s.ctx.host, s.Keys(), next), InvalidValues);
    if path in s.files && ConfigOnly(current) == next then Ok([])
    else Rewritten(s, environment, current, next, s.Keys(), TouchedKeys(changes, ConfigOnly(current), next))
  }

  // ---- editing every environment ----

  /** What a change of schema does to the stored values. */
  datatype Edit =
    | Drop(keys: seq<string>)
    | Lay(environment: string, values: Config, expected: Expected)

  function Edited(edit: Edit, environment: string, config: Config): Config {
    match edit
    case Drop(keys) => config - (set k | k in keys)
    case Lay(target, values, _) => if environment == target then config + values else config
  }

  predicate EditCurrent(edit: Edit, s: Session, environment: string) {
    edit.Lay? && environment == edit.environment && edit.expected.Some? ==>
      edit.expected.value == EtagAt(s.files, s.Home(environment))
  }

  function Rewrite(s: Session, keys: Keys, edit: Edit, touched: seq<string>, environment: string)
    : Result<seq<Write>, Refusal>
  {
    var current :- Document(s, environment);
    var _ :- Need(EditCurrent(edit, s, environment), FileChanged);
    var next := Edited(edit, environment, ConfigOnly(current));
    var _ :- Need(Accepts(s.ctx.host, keys, next), if edit.Drop? then Orphans else InvalidValues);
    if next == ConfigOnly(current) then Ok([])
    else Rewritten(s, environment, current, next, keys, touched)
  }

  function RewriteAll(s: Session, keys: Keys, edit: Edit, touched: seq<string>, environments: seq<string>)
    : Result<seq<Write>, Refusal>
  {
    if environments == [] then Ok([])
    else
      var first :- Rewrite(s, keys, edit, touched, environments[0]);
      var rest :- RewriteAll(s, keys, edit, touched, environments[1..]);
      Ok(first + rest)
  }

  // ---- the seven operations ----

  function ToConfig(fields: seq<Field>): Config {
    if fields == [] then map[]
    else ToConfig(fields[..|fields| - 1])[fields[|fields| - 1].key := fields[|fields| - 1].value]
  }

  function FieldKeys(fields: seq<Field>): seq<string> {
    seq(|fields|, i requires 0 <= i < |fields| => fields[i].key)
  }

  predicate Duplicates(names: seq<string>) {
    exists i, j :: 0 <= i < j < |names| && names[i] == names[j]
  }

  function EncodeAll(s: Session, environments: seq<string>, value: Config, keys: Keys, touched: seq<string>)
    : Result<seq<Write>, Refusal>
  {
    if environments == [] then Ok([])
    else
      var content :- Encode(s, environments[0], value, keys);
      var rest :- EncodeAll(s, environments[1..], value, keys, touched);
      Ok([Write(s.Home(environments[0]), Some(content), touched)] + rest)
  }

  /** The checks of `createProduct` that the request and the registry decide. */
  function MayCreate(s: Session, uid: Number, environments: seq<string>): Result<seq<Yaml>, Refusal> {
    var _ :- Need(s.service != "new" && s.service != "retiring", ReservedProduct);
    var _ :- Need(IsSafeInteger(uid) && uid.r.Floor >= 0, BadUid);
    var entries :- Entries(s.registry);
    var byName :- Find(entries, "name", Str(s.service));
    var _ :- Need(byName.None?, NameTaken);
    var byUid :- Find(entries, "uid", Num(uid));
    var _ :- Need(byUid.None?, UidTaken);
    var _ :- Need(s.schema.None? && s.Environments() == {}, DataExists);
    var _ :- Need(environments != [] && !Duplicates(environments)
            && forall e :: e in environments ==> Identifier(e) && Str(e) in s.order, BadEnvironments);
    Ok(entries)
  }

  predicate Unsafe(keys: Keys, key: string) {
    key in METADATA || (key in keys && keys[key].secret)
  }

  function Create(s: Session, uid: Number, environments: seq<string>, schema: Content, defaults: seq<Field>)
    : Result<Plan, Refusal>
  {
    var entries :- MayCreate(s, uid, environments);
    var product := ParseSchema(s.ctx.host, schema);
    var _ :- Need(product.Some?, Unreadable);
    var config := ToConfig(defaults);
    var _ :- Need(Accepts(s.ctx.host, product.value.keys, config), InvalidDefaults);
    var _ :- Need(forall k :: k in config ==> !Unsafe(product.value.keys, k), UnsafeDefaults);
    var values :- EncodeAll(s, environments, Versioned(config, 1), product.value.keys, FieldKeys(defaults));
    var registry := WithEntries(s.registry, entries + [Entry(s.service, uid, environments)]);
    Ok(Plan([Write(SchemaYaml(s.service), Some(schema), [s.service])]
            + values
            + [Write(SERVICES_YAML, Some(Stringify(registry)), [s.service])],
            BaseReads(s.service)))
  }

  function WriteValues(s: Session, environment: string, changes: seq<Change>, expected: Expected): Result<Plan, Refusal> {
    var _ :- RequireProduct(s);
    var writes :- Values(s, environment, changes, expected);
    Ok(Plan(writes, AddRead(BaseReads(s.service), s.Home(environment))))
  }

  function SetRetiring(s: Session, retiring: bool, force: bool): Result<Plan, Refusal> {
    var _ :- RequireProduct(s);
    var _ :- Need(retiring && !force ==> ArchivedYaml(s.service) !in s.files, ArchiveExists);
    var fields :- SchemaFields(s);
    var next := if retiring then fields["retiring" := Bool(true)] else fields - {"retiring"};
    Ok(Plan([Write(SchemaYaml(s.service), Some(Stringify(Map(next))), ["retiring"])], BaseReads(s.service)))
  }

  function Copied(keys: seq<string>, source: Config): seq<Change> {
    seq(|keys|, i requires 0 <= i < |keys| => Change(keys[i], At(source, keys[i])))
  }

  function Promote(s: Session, from: string, to: string, keys: seq<string>): Result<Plan, Refusal> {
    var _ :- RequireProduct(s);
    var _ :- Need(IsNext(s.order, from, to), NotNext);
    var selected :- Select(s, keys);
    var _ :- Need(forall k :: k in selected ==> !s.IsSecret(k), SecretPromoted);
    var source :- Document(s, from);
    var _ :- Need(forall k :: k in selected ==> k in source, NotSet);
    var writes :- Values(s, to, Copied(selected, source), None);
    Ok(Plan(writes, AddRead(AddRead(BaseReads(s.service), s.Home(from)), s.Home(to))))
  }

  function NamesOf(drafts: seq<KeyDraft>): seq<string> {
    seq(|drafts|, i requires 0 <= i < |drafts| => NameOf(drafts[i]))
  }

  function DraftDefaults(drafts: seq<KeyDraft>): Config {
    if drafts == [] then map[]
    else
      var last := drafts[|drafts| - 1];
      var init := DraftDefaults(drafts[..|drafts| - 1]);
      if last.secret || Given(last).None? then init else init[NameOf(last) := Given(last).value]
  }

  datatype Grown = Grown(source: Content, keys: Keys)

  /** The product's schema with the drafted keys beside its own. */
  ghost function Grow(s: Session, drafts: seq<KeyDraft>): Result<Grown, Refusal> {
    var _ :- Need(Clean(s.ctx.host, drafts), InvalidDrafts);
    var fields :- SchemaFields(s);
    var _ :- Need(Declarations(drafts).Keys !! DeclaredKeys(fields).Keys, AlreadyDeclared);
    var source := Stringify(Map(fields["keys" := Map(DeclaredKeys(fields) + Declarations(drafts))]));
    var candidate := ParseSchema(s.ctx.host, source);
    var _ :- Need(candidate.Some?, Unreadable);
    Ok(Grown(source, candidate.value.keys))
  }

  ghost function AddKeys(s: Session, environment: string, drafts: seq<KeyDraft>, expected: Expected)
    : Result<Plan, Refusal>
  {
    var _ :- RequireProduct(s);
    var _ :- Need(s.order != [] && s.order[0] == Str(environment), NotLowest);
    var _ :- Need(drafts != [], NothingAdded);
    var grown :- Grow(s, drafts);
    var _ :- Need(s.Home(environment) in s.files, NoFile);
    var writes :- RewriteAll(s, grown.keys, Lay(environment, DraftDefaults(drafts), expected),
                             NamesOf(drafts), Listed(s.Environments()));
    Ok(Plan(writes + [Write(SchemaYaml(s.service), Some(grown.source), NamesOf(drafts))],
            AddReads(BaseReads(s.service), s, Listed(s.Environments()))))
  }

  ghost function DeleteKeys(s: Session, selected: seq<string>, expectedBase: Option<Files>): Result<Plan, Refusal> {
    var _ :- Need(BaseMatches(expectedBase, s), ProductChanged);
    var _ :- RequireProduct(s);
    var keys :- Select(s, selected);
    var fields :- SchemaFields(s);
    var nextSource := Stringify(Map(fields["keys" := Map(DeclaredKeys(fields) - (set k | k in keys))]));
    var candidate := ParseSchema(s.ctx.host, nextSource);
    var _ :- Need(candidate.Some?, Unreadable);
    var writes :- RewriteAll(s, candidate.value.keys, Drop(keys), keys, Listed(s.Environments()));
    Ok(Plan(writes + [Write(SchemaYaml(s.service), Some(nextSource), keys)],
            AddReads(BaseReads(s.service), s, Listed(s.Environments()))))
  }

  function Deletions(s: Session, environments: seq<string>): seq<Write> {
    seq(|environments|, i requires 0 <= i < |environments| => Write(s.Home(environments[i]), None, [s.service]))
  }

  /** The archive keeps every file's text as it was, ciphertext and all. */
  function ArchiveDocument(s: Session, identity: Yaml, schema: Content, at: string, author: string): Yaml {
    Map(map["version" := Num(Int(1)),
            "archived" := Map(map["at" := Str(at), "by" := Str(author)]),
            "service" := identity,
            "schema" := Source(schema),
            "environments" := Map(map e | e in s.Environments() && s.Home(e) in s.files :: Source(s.files[s.Home(e)]))])
  }

  ghost function Archive(s: Session, expectedBase: Option<Files>, force: bool, at: string, author: string)
    : Result<Plan, Refusal>
  {
    var _ :- Need(BaseMatches(expectedBase, s), ProductChanged);
    var identity :- RequireProduct(s);
    var _ :- Need(s.schema.value.retiring, NotRetiring);
    var _ :- Need(force || ArchivedYaml(s.service) !in s.files, ArchiveExists);
    var entries := Entries(s.registry).value;
    var _ :- Need(Null !in entries, Unreadable);
    var source := Peek(s.files, SchemaYaml(s.service));
    var _ :- Need(source.Some?, UnknownProduct);
    var archive := ArchiveDocument(s, identity, source.value, at, author);
    Ok(Plan([Write(SERVICES_YAML, Some(Stringify(WithEntries(s.registry, Without(entries, s.service)))), [s.service]),
             Write(ArchivedYaml(s.service), Some(Stringify(archive)), [s.service])]
            + Deletions(s, Listed(s.Environments()))
            + [Write(SchemaYaml(s.service), None, [s.service])],
            BaseReads(s.service)))
  }

  datatype Operation =
    | CreateOp(uid: Number, environments: seq<string>, schema: Content, defaults: seq<Field>)
    | WriteOp(environment: string, changes: seq<Change>, expected: Expected)
    | RetireOp(retiring: bool, force: bool)
    | PromoteOp(from: string, to: string, keys: seq<string>)
    | AddOp(environment: string, drafts: seq<KeyDraft>, expected: Expected)
    | DeleteOp(keys: seq<string>, expectedBase: Option<Files>)
    | ArchiveOp(expectedBase: Option<Files>, force: bool, at: string, author: string)

  ghost function Act(s: Session, op: Operation): Result<Plan, Refusal> {
    match op
    case CreateOp(uid, environments, schema, defaults) => Create(s, uid, environments, schema, defaults)
    case WriteOp(environment, changes, expected) => WriteValues(s, environment, changes, expected)
    case RetireOp(retiring, force) => SetRetiring(s, retiring, force)
    case PromoteOp(from, to, keys) => Promote(s, from, to, keys)
    case AddOp(environment, drafts, expected) => AddKeys(s, environment, drafts, expected)
    case DeleteOp(keys, expectedBase) => DeleteKeys(s, keys, expectedBase)
    case ArchiveOp(expectedBase, force, at, author) => Archive(s, expectedBase, force, at, author)
  }

  /** `run`: one action over one snapshot. */
  ghost function Perform(ctx: Context, service: string, op: Operation, files: Files): Result<Plan, Refusal> {
    var _ :- Need(Identifier(service), InvalidName);
    var s :- Open(ctx, service, files);
    Act(s, op)
  }

  /** `commit`: every write carries the ETag its path had, every read is checked, and so is the listing. */
  function MutationsOf(files: Files, actor: string, writes: seq<Write>): seq<Mutation> {
    seq(|writes|, i requires 0 <= i < |writes| =>
      Mutation(writes[i].path, writes[i].content, Exactly(EtagAt(files, writes[i].path)),
               Storage.Attribution(actor, writes[i].keys), true))
  }

  function ChecksOf(files: Files, consulted: seq<Path>): seq<ReadCheck> {
    seq(|consulted|, i requires 0 <= i < |consulted| => ReadCheck(consulted[i], EtagAt(files, consulted[i])))
  }

  ghost function RequestOf(files: Files, actor: string, service: string, plan: Plan): Request {
    Request(MutationsOf(files, actor, plan.writes), ChecksOf(files, plan.consulted),
            [ListingCheck(ConfigDir(service), Listed(Names(files, ConfigDir(service))))])
  }
}
