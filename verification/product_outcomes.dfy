/** Creating, retiring and archiving products: when they are refused, and what they leave behind. */
module ProductOutcomes {
  import opened Wrappers
  import opened Documents
  import opened Text
  import Storage
  import opened Requests
  import opened Schemas
  import opened Builder
  import opened Registry
  import opened Products
  import opened Consistency
  import opened Visibility
  import opened ProductSafety
  import opened KeyEdits
  import opened KeyAdditions
  import opened ProductEffects
  import opened ProductDecisions
  import opened KeyDecisions
  import opened ProductFrame

  // ---- names, digests and readings ----

  /** A product name is a segment that starts with a letter; a segment is letters, digits and inner dashes. */
  lemma IdentifierIff(s: string)
    ensures Identifier(s) <==> IsSegment(s) && !('0' <= s[0] <= '9')
    ensures IsSegment(s) <==> s != "" && s[0] != '-' && forall c :: c in s ==> 'a' <= c <= 'z' || '0' <= c <= '9' || c == '-'
  {
    if s != "" {
      assert forall i :: 0 <= i < |s| ==> s[i] in s;
    }
  }

  /** Two databases have one product digest exactly if they agree on every file the product is made of. */
  lemma DigestIff(a: Files, b: Files, service: string)
    ensures ProductBase(a, service) == ProductBase(b, service) <==>
            forall p ::
              p == SchemaYaml(service) || p == SERVICES_YAML || p == ENVIRONMENTS_YAML || p.dir == ConfigDir(service) ==>
                Peek(a, p) == Peek(b, p)
  {
    var x, y := ProductBase(a, service), ProductBase(b, service);
    forall p ensures Peek(x, p) == if p == SchemaYaml(service) || p == SERVICES_YAML || p == ENVIRONMENTS_YAML
                                      || p.dir == ConfigDir(service) then Peek(a, p) else None
    {
    }
    forall p ensures Peek(y, p) == if p == SchemaYaml(service) || p == SERVICES_YAML || p == ENVIRONMENTS_YAML
                                      || p.dir == ConfigDir(service) then Peek(b, p) else None
    {
    }
    if forall p :: Peek(x, p) == Peek(y, p) {
      assert forall p :: p in x <==> Peek(x, p).Some?;
      assert forall p :: p in y <==> Peek(y, p).Some?;
      assert x == y;
    }
  }

  /** The declared order: the strings of the file's `order`, and all of it if it holds only strings. */
  lemma {:induction false} OnlyStrings(items: seq<Yaml>, v: Yaml)
    ensures v in Only(items) <==> v in items && IsString(v)
    ensures AllStrings(items) ==> Only(items) == items
  {
    if items != [] {
      OnlyStrings(items[1..], v);
      assert items == [items[0]] + items[1..];
    }
  }

  lemma OrderIs(c: Content, v: Yaml)
    ensures v in OrderOf(Some(c)) <==>
            c.Text? && FieldOf(c.tree, "order").Some? && FieldOf(c.tree, "order").value.List?
            && v in FieldOf(c.tree, "order").value.items && (v.Str? || v.Cipher? || v.Source?)
    ensures c.Text? && FieldOf(c.tree, "order").Some? && FieldOf(c.tree, "order").value.List?
            && (forall x :: x in FieldOf(c.tree, "order").value.items ==> x.Str?) ==>
              OrderOf(Some(c)) == FieldOf(c.tree, "order").value.items
    ensures OrderOf(None) == []
  {
    if c.Text? && FieldOf(c.tree, "order").Some? && FieldOf(c.tree, "order").value.List? {
      OnlyStrings(FieldOf(c.tree, "order").value.items, v);
    }
  }

  /** `services.yaml` as an operation sees it; a database without one declares no product. */
  ghost predicate RegistryIs(files: Files, registry: Yaml) {
    if SERVICES_YAML in files then files[SERVICES_YAML].Text? && files[SERVICES_YAML].tree == registry
    else IsRegistryFile(registry) && ServicesOf(registry) == [] && registry.fields.Keys == {"version", "services"}
  }

  /**
   * An operation on an ill-named product is refused, and so is one on a database with an unreadable
   * schema or registry; any other acts on exactly what the database holds.
   */
  lemma PerformOpens(ctx: Context, service: string, op: Operation, files: Files)
    ensures
      var r := Perform(ctx, service, op, files);
      if !Identifier(service) then r == Err(InvalidName)
      else if (exists p :: p in files && IsSchemaPath(p) && ParseSchema(ctx.host, files[p]).None?)
              || (SERVICES_YAML in files && files[SERVICES_YAML].Unparsable?) then r == Err(Unreadable)
      else exists s: Session ::
             && s.ctx == ctx && s.service == service && s.files == files && r == Act(s, op)
             && RegistryIs(files, s.registry) && s.order == OrderOf(Peek(files, ENVIRONMENTS_YAML))
             && s.schema == (if SchemaYaml(service) in files then ParseSchema(ctx.host, files[SchemaYaml(service)]) else None)
             && (Consistent(ctx.host, files) ==> Ready(s))
  {
    var session := Open(ctx, service, files);
    if Identifier(service) && session.Ok? {
      var s := session.value;
      assert RegistryIs(files, s.registry);
      assert Perform(ctx, service, op, files) == Act(s, op);
    }
  }

  /** The schema file carries the mark. */
  predicate Marked(files: Files, service: string) {
    && SchemaYaml(service) in files && files[SchemaYaml(service)].Text?
    && FieldOf(files[SchemaYaml(service)].tree, "retiring") == Some(Bool(true))
  }

  lemma MarkedIff(s: Session)
    requires Ready(s) && s.schema.Some?
    ensures s.schema.value.retiring <==> Marked(s.files, s.service)
  {
    ReadySchema(s);
  }

  // ---- archiving ----

  ghost function ArchiveRefusal(s: Session, expected: Option<Files>, force: bool): Option<Refusal> {
    if expected.Some? && expected.value != ProductBase(s.files, s.service) then Some(ProductChanged)
    else if !Known(s) then Some(UnknownProduct)
    else if !Marked(s.files, s.service) then Some(NotRetiring)
    else if !force && ArchivedYaml(s.service) in s.files then Some(ArchiveExists)
    else None
  }

  /** Archiving, decided: only a marked product can be archived, and never over an older archive unless forced. */
  lemma ArchiveDecides(s: Session, expected: Option<Files>, force: bool, at: string, author: string)
    requires Ready(s)
    ensures
      var r, refusal := Archive(s, expected, force, at, author), ArchiveRefusal(s, expected, force);
      (refusal.Some? ==> r == Err(refusal.value)) && (refusal.None? ==> r.Ok?)
  {
    KnownIff(s);
    EntriesOk(s.registry);
    if Known(s) {
      MarkedIff(s);
    }
  }

  // ---- creation ----

  ghost predicate LastField(fields: seq<Field>, i: nat, key: string) {
    i < |fields| && fields[i].key == key && forall j :: i < j < |fields| ==> fields[j].key != key
  }

  /** `config` holds each field under its key, the last one where several share it, and nothing else. */
  ghost predicate HoldsFields(config: Config, fields: seq<Field>) {
    forall k ::
      && ((forall i :: 0 <= i < |fields| ==> fields[i].key != k) ==> At(config, k) == None)
      && (forall i: nat :: LastField(fields, i, k) ==> At(config, k) == Some(fields[i].value))
  }

  lemma {:induction false} FieldHeld(fields: seq<Field>, i: nat, k: string)
    requires LastField(fields, i, k)
    ensures At(ToConfig(fields), k) == Some(fields[i].value)
  {
    var n := |fields| - 1;
    if i < n {
      assert forall j :: 0 <= j < n ==> fields[..n][j] == fields[j];
      FieldHeld(fields[..n], i, k);
    }
  }

  lemma {:induction false} FieldMissing(fields: seq<Field>, k: string)
    requires forall i :: 0 <= i < |fields| ==> fields[i].key != k
    ensures At(ToConfig(fields), k) == None
  {
    if fields != [] {
      FieldMissing(fields[..|fields| - 1], k);
    }
  }

  lemma FieldsHeld(fields: seq<Field>)
    ensures HoldsFields(ToConfig(fields), fields)
  {
    forall k
      ensures (forall i :: 0 <= i < |fields| ==> fields[i].key != k) ==> At(ToConfig(fields), k) == None
      ensures forall i: nat :: LastField(fields, i, k) ==> At(ToConfig(fields), k) == Some(fields[i].value)
    {
      if forall i :: 0 <= i < |fields| ==> fields[i].key != k {
        FieldMissing(fields, k);
      }
      forall i: nat | LastField(fields, i, k) ensures At(ToConfig(fields), k) == Some(fields[i].value) {
        FieldHeld(fields, i, k);
      }
    }
  }

  lemma {:induction false} SomeLastField(fields: seq<Field>, k: string) returns (i: nat)
    requires exists j :: 0 <= j < |fields| && fields[j].key == k
    ensures LastField(fields, i, k)
  {
    var n := |fields| - 1;
    if fields[n].key == k {
      i := n;
    } else {
      i := SomeLastField(fields[..n], k);
    }
  }

  lemma FieldsUnique(a: Config, b: Config, fields: seq<Field>)
    requires HoldsFields(a, fields) && HoldsFields(b, fields)
    ensures a == b
  {
    forall k ensures At(a, k) == At(b, k) {
      if exists j :: 0 <= j < |fields| && fields[j].key == k {
        var i := SomeLastField(fields, k);
      }
    }
    SameEverywhere(a, b);
  }

  /** A product may be created in these environments. */
  predicate Placeable(s: Session, environments: seq<string>) {
    && environments != []
    && (forall i, j :: 0 <= i < j < |environments| ==> environments[i] != environments[j])
    && (forall i :: 0 <= i < |environments| ==> Identifier(environments[i]) && Str(environments[i]) in s.order)
  }

  ghost predicate Taken(s: Session, uid: nat) {
    IsRegistryFile(s.registry) && exists i :: 0 <= i < |ServicesOf(s.registry)| && ServicesOf(s.registry)[i].uid == uid
  }

  ghost predicate HasData(s: Session) {
    SchemaYaml(s.service) in s.files || exists e :: ConfigYaml(s.service, e) in s.files
  }

  ghost predicate IsNat(uid: Number, n: nat) {
    uid == Int(n) && n <= MAX_SAFE_INTEGER
  }

  /** What is wrong with a creation, in the order it is checked; `defaults` are the values asked for. */
  ghost function CreationRefusal(s: Session, uid: Number, environments: seq<string>, schema: Content, defaults: Config)
    : Option<Refusal>
  {
    if s.service == "new" || s.service == "retiring" then Some(ReservedProduct)
    else if !exists n: nat :: IsNat(uid, n) then Some(BadUid)
    else if Known(s) then Some(NameTaken)
    else if exists n: nat :: IsNat(uid, n) && Taken(s, n) then Some(UidTaken)
    else if HasData(s) then Some(DataExists)
    else if !Placeable(s, environments) then Some(BadEnvironments)
    else if ParseSchema(s.ctx.host, schema).None? then Some(Unreadable)
    else if !Accepts(s.ctx.host, ParseSchema(s.ctx.host, schema).value.keys, defaults) then Some(InvalidDefaults)
    else if exists k :: k in defaults && (IsMetadata(k) || (k in ParseSchema(s.ctx.host, schema).value.keys
                                          && ParseSchema(s.ctx.host, schema).value.keys[k].secret)) then Some(UnsafeDefaults)
    else None
  }

  lemma NatIff(uid: Number, n: nat)
    requires IsNat(uid, n)
    ensures IsSafeInteger(uid) && uid.r.Floor == n
  {
  }

  lemma SafeIsNat(uid: Number)
    requires IsSafeInteger(uid) && uid.r.Floor >= 0
    ensures IsNat(uid, uid.r.Floor)
  {
  }

  lemma DataIff(s: Session)
    requires Ready(s)
    ensures HasData(s) <==> s.schema.Some? || s.Environments() != {}
  {
    if SchemaYaml(s.service) in s.files {
      ReadyKnown(s);
    }
    if e :| ConfigYaml(s.service, e) in s.files {
      assert e in s.Environments();
    }
    if e :| e in s.Environments() {
      assert ConfigYaml(s.service, e) in s.files;
    }
  }

  lemma PlaceableIff(s: Session, environments: seq<string>)
    ensures Placeable(s, environments) <==>
            environments != [] && !Duplicates(environments)
            && forall e :: e in environments ==> Identifier(e) && Str(e) in s.order
  {
  }

  lemma UidDecides(s: Session, uid: Number)
    requires Ready(s)
    ensures IsSafeInteger(uid) && uid.r.Floor >= 0 <==> exists n: nat :: IsNat(uid, n)
    ensures Entries(s.registry).Ok?
    ensures IsSafeInteger(uid) && uid.r.Floor >= 0 ==>
              var entries := Entries(s.registry).value;
              var byName, byUid := Find(entries, "name", Str(s.service)), Find(entries, "uid", Num(uid));
              && byName.Ok? && byUid.Ok? && (byName.value.Some? <==> Known(s))
              && (byUid.value.Some? <==> exists n: nat :: IsNat(uid, n) && Taken(s, n))
  {
    EntriesOk(s.registry);
    if n: nat :| IsNat(uid, n) {
      NatIff(uid, n);
    }
    if IsSafeInteger(uid) && uid.r.Floor >= 0 {
      SafeIsNat(uid);
      FoundIff(s, uid);
      var n := uid.r.Floor;
      assert IsNat(uid, n);
      forall m: nat | IsNat(uid, m) ensures m == n {
        NatIff(uid, m);
      }
      assert Taken(s, n) <==> Find(Entries(s.registry).value, "uid", Num(uid)).value.Some?;
    }
  }

  lemma MayCreateDecides(s: Session, uid: Number, environments: seq<string>)
    requires Ready(s)
    ensures
      var r := MayCreate(s, uid, environments);
      if s.service == "new" || s.service == "retiring" then r == Err(ReservedProduct)
      else if !exists n: nat :: IsNat(uid, n) then r == Err(BadUid)
      else if Known(s) then r == Err(NameTaken)
      else if exists n: nat :: IsNat(uid, n) && Taken(s, n) then r == Err(UidTaken)
      else if HasData(s) then r == Err(DataExists)
      else if !Placeable(s, environments) then r == Err(BadEnvironments)
      else r.Ok?
  {
    DataIff(s);
    PlaceableIff(s, environments);
    UidDecides(s, uid);
  }

  lemma {:induction false} EncodesAll(s: Session, envs: seq<string>, value: Config, keys: Keys, touched: seq<string>)
    requires value == Versioned(value, 1) && Storable(s.ctx.host, keys, value)
    ensures EncodeAll(s, envs, value, keys, touched).Ok?
    decreases |envs|
  {
    if envs != [] {
      EncodeIff(s, envs[0], value, 1, keys);
      EncodesAll(s, envs[1..], value, keys, touched);
    }
  }

  lemma PlainStorable(host: Host, keys: Keys, config: Config)
    requires forall k :: k in config ==> !IsMetadata(k) && !(k in keys && keys[k].secret)
    ensures Versioned(config, 1) == Versioned(Versioned(config, 1), 1) && Storable(host, keys, Versioned(config, 1))
  {
  }

  lemma CreateRefuses(s: Session, uid: Number, environments: seq<string>, schema: Content, defaults: seq<Field>)
    ensures
      var r, may := Create(s, uid, environments, schema, defaults), MayCreate(s, uid, environments);
      var product, config := ParseSchema(s.ctx.host, schema), ToConfig(defaults);
      && (may.Err? ==> r == Err(may.error))
      && (may.Ok? ==>
            && (product.None? ==> r == Err(Unreadable))
            && (product.Some? && !Accepts(s.ctx.host, product.value.keys, config) ==> r == Err(InvalidDefaults))
            && (product.Some? && Accepts(s.ctx.host, product.value.keys, config) ==>
                  && ((exists k :: k in config && Unsafe(product.value.keys, k)) ==> r == Err(UnsafeDefaults))
                  && ((forall k :: k in config ==> !Unsafe(product.value.keys, k)) ==>
                        var value, keys := Versioned(config, 1), product.value.keys;
                        var values := EncodeAll(s, environments, value, keys, FieldKeys(defaults));
                        (values.Err? ==> r == Err(values.error)) && (values.Ok? ==> r.Ok?))))
  {
  }

  /** Creation, decided. Its documents hold no secret and start a fresh counter, so storing them never fails. */
  lemma CreateDecides(s: Session, uid: Number, environments: seq<string>, schema: Content, fields: seq<Field>, defaults: Config)
    requires Ready(s) && HoldsFields(defaults, fields)
    ensures
      var r, refusal := Create(s, uid, environments, schema, fields), CreationRefusal(s, uid, environments, schema, defaults);
      (refusal.Some? ==> r == Err(refusal.value)) && (refusal.None? ==> r.Ok?)
  {
    FieldsHeld(fields);
    FieldsUnique(ToConfig(fields), defaults, fields);
    MayCreateDecides(s, uid, environments);
    CreateRefuses(s, uid, environments, schema, fields);
    CreateStores(s, environments, ParseSchema(s.ctx.host, schema), fields, defaults);
    CreateFolds(s, uid, environments, schema, defaults, MayCreate(s, uid, environments));
  }

  lemma CreateFolds(s: Session, uid: Number, environments: seq<string>, schema: Content, defaults: Config,
                    may: Result<seq<Yaml>, Refusal>)
    requires
      if s.service == "new" || s.service == "retiring" then may == Err(ReservedProduct)
      else if !exists n: nat :: IsNat(uid, n) then may == Err(BadUid)
      else if Known(s) then may == Err(NameTaken)
      else if exists n: nat :: IsNat(uid, n) && Taken(s, n) then may == Err(UidTaken)
      else if HasData(s) then may == Err(DataExists)
      else if !Placeable(s, environments) then may == Err(BadEnvironments)
      else may.Ok?
    ensures
      var product := ParseSchema(s.ctx.host, schema);
      CreationRefusal(s, uid, environments, schema, defaults)
      == if may.Err? then Some(may.error)
         else if product.None? then Some(Unreadable)
         else if !Accepts(s.ctx.host, product.value.keys, defaults) then Some(InvalidDefaults)
         else if exists k :: k in defaults && Unsafe(product.value.keys, k) then Some(UnsafeDefaults)
         else None
  {
    var product := ParseSchema(s.ctx.host, schema);
    if product.Some? {
      assert forall k :: Unsafe(product.value.keys, k) <==>
                         IsMetadata(k) || (k in product.value.keys && product.value.keys[k].secret);
    }
  }

  lemma CreateStores(s: Session, environments: seq<string>, product: Option<Schema>, fields: seq<Field>, config: Config)
    ensures
      product.Some? && (forall k :: k in config ==> !Unsafe(product.value.keys, k)) ==>
        EncodeAll(s, environments, Versioned(config, 1), product.value.keys, FieldKeys(fields)).Ok?
  {
    if product.Some? && forall k :: k in config ==> !Unsafe(product.value.keys, k) {
      PlainStorable(s.ctx.host, product.value.keys, config);
      EncodesAll(s, environments, Versioned(config, 1), product.value.keys, FieldKeys(fields));
    }
  }

  // ---- what they leave behind ----

  /**
   * Marking leaves a schema that reads as retiring, and unmarking one that does not: its keys and every
   * other field of it are as they were, and so is every other file.
   */
  lemma RetireEffect(s: Session, retiring: bool, force: bool)
    requires Ready(s) && SetRetiring(s, retiring, force).Ok?
    ensures
      var writes := SetRetiring(s, retiring, force).value.writes;
      var after, path := Applied(s.files, writes), SchemaYaml(s.service);
      && s.schema.Some? && path in s.files && path in after && s.files[path].Text? && after[path].Text?
      && ParseSchema(s.ctx.host, after[path]) == Some(Schema(s.Keys(), retiring))
      && FieldOf(after[path].tree, "retiring") == (if retiring then Some(Bool(true)) else None)
      && (forall k :: k != "retiring" ==> FieldOf(after[path].tree, k) == FieldOf(s.files[path].tree, k))
      && (forall p :: p != path ==> Peek(after, p) == Peek(s.files, p))
      && (forall i :: 0 <= i < |writes| ==> writes[i].keys == ["retiring"])
  {
    ReadySchema(s);
    var w := SetRetiring(s, retiring, force).value.writes[0];
    assert SetRetiring(s, retiring, force).value.writes == [w];
    AppliedOne(s.files, w);
    SchemaMarked(s.ctx.host, SchemaFields(s).value, retiring);
  }

  lemma {:induction false} EncodedAt(s: Session, files: Files, envs: seq<string>, value: Config, keys: Keys,
                                     touched: seq<string>, p: Path)
    requires EncodeAll(s, envs, value, keys, touched).Ok?
    ensures (forall i :: 0 <= i < |envs| ==> p != s.Home(envs[i])) ==>
              Peek(Applied(files, EncodeAll(s, envs, value, keys, touched).value), p) == Peek(files, p)
    ensures forall i :: 0 <= i < |envs| && p == s.Home(envs[i]) ==>
              Encode(s, envs[i], value, keys).Ok?
              && Peek(Applied(files, EncodeAll(s, envs, value, keys, touched).value), p)
                 == Some(Encode(s, envs[i], value, keys).value)
    decreases |envs|
  {
    if envs != [] {
      var c := Encode(s, envs[0], value, keys).value;
      var after := files[s.Home(envs[0]) := c];
      var writes := EncodeAll(s, envs, value, keys, touched).value;
      assert writes[1..] == EncodeAll(s, envs[1..], value, keys, touched).value;
      EncodedAt(s, after, envs[1..], value, keys, touched, p);
      assert forall i :: 0 < i < |envs| ==> envs[i] == envs[1..][i - 1];
      if i :| 0 <= i < |envs| && p == s.Home(envs[i]) {
        if !exists j :: 0 < j < |envs| && p == s.Home(envs[j]) {
          assert i == 0;
        }
      }
    }
  }

  /** The environment holds exactly these values, as their first version. */
  ghost predicate Fresh(s: Session, after: Files, e: string, defaults: Config) {
    && s.Home(e) in after && Resolve(s.ctx.host, after[s.Home(e)]).Some?
    && ConfigOnly(Held(s, after, e)) == defaults && VersionOf(Held(s, after, e)) == 1
  }

  lemma EncodedIsFresh(s: Session, after: Files, e: string, config: Config, keys: Keys)
    requires Encode(s, e, Versioned(config, 1), keys).Ok? && Accepts(s.ctx.host, keys, config)
    requires forall k :: k in config ==> !Unsafe(keys, k)
    requires Peek(after, s.Home(e)) == Some(Encode(s, e, Versioned(config, 1), keys).value)
    ensures Fresh(s, after, e, config)
  {
    PlainDefaults(config, keys);
    EncodedIsOk(s, e, Versioned(config, 1), keys);
    VersionIs(Versioned(config, 1), 1);
  }

  /** The registry grants one more product these environments, and is otherwise as it was. */
  ghost predicate Granted(s: Session, after: Files, uid: Number, environments: seq<string>) {
    var registry := RegistryDocument(Peek(after, SERVICES_YAML));
    && registry.Some? && IsRegistryFile(registry.value) && IsRegistryFile(s.registry)
    && var was, now := ServicesOf(s.registry), ServicesOf(registry.value);
       && |now| == |was| + 1 && now[..|was|] == was
       && now[|was|].name == s.service && IsNat(uid, now[|was|].uid)
       && |now[|was|].namespaces| == |environments|
       && forall i :: 0 <= i < |environments| ==> now[|was|].namespaces[i] == s.service + "/" + environments[i]
  }

  lemma EntryGrants(s: Session, uid: Number, environments: seq<string>)
    requires Ready(s) && MayCreate(s, uid, environments).Ok?
    ensures
      var entry := Entry(s.service, uid, environments);
      && IsServiceEntry(entry)
      && var added := ServiceOf(entry);
         && added.name == s.service && IsNat(uid, added.uid) && |added.namespaces| == |environments|
         && forall i :: 0 <= i < |environments| ==> added.namespaces[i] == s.service + "/" + environments[i]
  {
    NewNames(s, uid, environments);
    SafeIsNat(uid);
  }

  lemma RegistryGrants(s: Session, uid: Number, environments: seq<string>, after: Files)
    requires Ready(s) && MayCreate(s, uid, environments).Ok?
    requires Peek(after, SERVICES_YAML) == RegistryWrite(s, uid, environments).content
    ensures Granted(s, after, uid, environments)
  {
    NewNames(s, uid, environments);
    EntryGrants(s, uid, environments);
  }

  /** What a creation leaves: its schema as given, each environment with the defaults, and its grants. */
  ghost predicate Created(s: Session, uid: Number, environments: seq<string>, schema: Content, fields: seq<Field>,
                          after: Files)
  {
    && Peek(after, SchemaYaml(s.service)) == Some(schema)
    && (exists defaults :: HoldsFields(defaults, fields)
                           && forall i :: 0 <= i < |environments| ==> Fresh(s, after, environments[i], defaults))
    && Granted(s, after, uid, environments)
    && (forall p :: p != SchemaYaml(s.service) && p != SERVICES_YAML
                    && (forall i :: 0 <= i < |environments| ==> p != s.Home(environments[i])) ==>
          Peek(after, p) == Peek(s.files, p))
  }

  lemma CreateEffect(s: Session, uid: Number, environments: seq<string>, schema: Content, fields: seq<Field>)
    requires Ready(s) && Create(s, uid, environments, schema, fields).Ok?
    ensures Created(s, uid, environments, schema, fields,
                    Applied(s.files, Create(s, uid, environments, schema, fields).value.writes))
  {
    CreateChecks(s, uid, environments, schema, fields);
    var config, keys := ToConfig(fields), ParseSchema(s.ctx.host, schema).value.keys;
    var values := EncodeAll(s, environments, Versioned(config, 1), keys, FieldKeys(fields)).value;
    var after := Applied(s.files, [Write(SchemaYaml(s.service), Some(schema), [s.service])] + values
                                  + [RegistryWrite(s, uid, environments)]);
    CreateLands(s, uid, environments, schema, Versioned(config, 1), keys, FieldKeys(fields));
    RegistryGrants(s, uid, environments, after);
    AllFresh(s, after, environments, fields, config, keys);
    MayCreateGives(s, uid, environments);
  }

  lemma AllFresh(s: Session, after: Files, environments: seq<string>, fields: seq<Field>, config: Config, keys: Keys)
    requires config == ToConfig(fields) && Accepts(s.ctx.host, keys, config) && forall k :: k in config ==> !Unsafe(keys, k)
    requires forall i :: 0 <= i < |environments| ==>
               Encode(s, environments[i], Versioned(config, 1), keys).Ok?
               && Peek(after, s.Home(environments[i])) == Some(Encode(s, environments[i], Versioned(config, 1), keys).value)
    ensures HoldsFields(config, fields)
    ensures forall i :: 0 <= i < |environments| ==> Fresh(s, after, environments[i], config)
  {
    FieldsHeld(fields);
    forall i | 0 <= i < |environments| ensures Fresh(s, after, environments[i], config) {
      EncodedIsFresh(s, after, environments[i], config, keys);
    }
  }

  lemma CreateLands(s: Session, uid: Number, envs: seq<string>, schema: Content, value: Config, keys: Keys,
                    touched: seq<string>)
    requires MayCreate(s, uid, envs).Ok? && EncodeAll(s, envs, value, keys, touched).Ok?
    ensures
      var after := Applied(s.files, [Write(SchemaYaml(s.service), Some(schema), [s.service])]
                                    + EncodeAll(s, envs, value, keys, touched).value
                                    + [RegistryWrite(s, uid, envs)]);
      && Peek(after, SchemaYaml(s.service)) == Some(schema)
      && Peek(after, SERVICES_YAML) == RegistryWrite(s, uid, envs).content
      && (forall i :: 0 <= i < |envs| ==>
            Encode(s, envs[i], value, keys).Ok? && Peek(after, s.Home(envs[i])) == Some(Encode(s, envs[i], value, keys).value))
      && (forall p :: p != SchemaYaml(s.service) && p != SERVICES_YAML
                      && (forall i :: 0 <= i < |envs| ==> p != s.Home(envs[i])) ==>
            Peek(after, p) == Peek(s.files, p))
  {
    var first, last := Write(SchemaYaml(s.service), Some(schema), [s.service]), RegistryWrite(s, uid, envs);
    var values := EncodeAll(s, envs, value, keys, touched).value;
    AppliedConcat(s.files, [first] + values, [last]);
    AppliedConcat(s.files, [first], values);
    AppliedOne(s.files, first);
    var begun := s.files[SchemaYaml(s.service) := schema];
    var middle := Applied(begun, values);
    AppliedOne(middle, last);
    EncodedLand(s, begun, envs, value, keys, touched);
    assert Peek(middle, SchemaYaml(s.service)) == Peek(begun, SchemaYaml(s.service));
    PutElsewhere(middle, last);
    PutElsewhere(s.files, first);
  }

  lemma PutElsewhere(files: Files, w: Write)
    requires w.content.Some?
    ensures forall p :: Peek(Storage.Put(files, w.path, w.content), p) == if p == w.path then w.content else Peek(files, p)
  {
  }

  lemma EncodedLand(s: Session, files: Files, envs: seq<string>, value: Config, keys: Keys, touched: seq<string>)
    requires EncodeAll(s, envs, value, keys, touched).Ok?
    ensures
      var after := Applied(files, EncodeAll(s, envs, value, keys, touched).value);
      && (forall i :: 0 <= i < |envs| ==>
            Encode(s, envs[i], value, keys).Ok? && Peek(after, s.Home(envs[i])) == Some(Encode(s, envs[i], value, keys).value))
      && (forall p :: (forall i :: 0 <= i < |envs| ==> p != s.Home(envs[i])) ==> Peek(after, p) == Peek(files, p))
  {
    var after := Applied(files, EncodeAll(s, envs, value, keys, touched).value);
    forall i | 0 <= i < |envs|
      ensures Encode(s, envs[i], value, keys).Ok?
      ensures Peek(after, s.Home(envs[i])) == Some(Encode(s, envs[i], value, keys).value)
    {
      EncodedAt(s, files, envs, value, keys, touched, s.Home(envs[i]));
    }
    forall p | forall i :: 0 <= i < |envs| ==> p != s.Home(envs[i]) ensures Peek(after, p) == Peek(files, p) {
      EncodedAt(s, files, envs, value, keys, touched, p);
    }
  }

  // ---- what the audit records ----

  /** A named key whose value is another one now; every named key if none is. */
  ghost predicate Touched(before: Config, after: Config, changes: seq<Change>, key: string) {
    && (exists i :: 0 <= i < |changes| && changes[i].key == key)
    && (At(before, key) != At(after, key)
        || forall i :: 0 <= i < |changes| ==> At(before, changes[i].key) == At(after, changes[i].key))
  }

  lemma {:induction false} DifferingIff(changes: seq<Change>, before: Config, after: Config, key: string)
    ensures key in Differing(changes, before, after) <==>
            At(before, key) != At(after, key) && exists i :: 0 <= i < |changes| && changes[i].key == key
  {
    if changes != [] {
      DifferingIff(changes[1..], before, after, key);
      assert forall i :: 0 < i < |changes| ==> changes[i] == changes[1..][i - 1];
      if j :| 0 <= j < |changes[1..]| && changes[1..][j].key == key {
        assert changes[j + 1].key == key;
      }
    }
  }

  lemma TouchedIff(changes: seq<Change>, before: Config, after: Config, key: string)
    ensures key in TouchedKeys(changes, before, after) <==> Touched(before, after, changes, key)
  {
    var differing := Differing(changes, before, after);
    DifferingIff(changes, before, after, key);
    assert key in KeysOf(changes) <==> exists i :: 0 <= i < |changes| && changes[i].key == key by {
      if i :| 0 <= i < |changes| && changes[i].key == key {
        assert KeysOf(changes)[i] == key;
      }
    }
    if differing == [] {
      forall i | 0 <= i < |changes| ensures At(before, changes[i].key) == At(after, changes[i].key) {
        DifferingIff(changes, before, after, changes[i].key);
      }
    } else {
      DifferingIff(changes, before, after, differing[0]);
    }
  }

  /** An edit's one write records the touched keys, each of them and no other. */
  lemma EditIsRecorded(s: Session, e: string, changes: seq<Change>, expected: Expected, next: Config, key: string)
    requires Ready(s) && s.schema.Some? && Values(s, e, changes, expected).Ok?
    requires Takes(ConfigOnly(Held(s, s.files, e)), changes, next)
    ensures forall w :: w in Values(s, e, changes, expected).value ==>
              (key in w.keys <==> Touched(ConfigOnly(Held(s, s.files, e)), next, changes, key))
  {
    var before := ConfigOnly(Held(s, s.files, e));
    ReadableIff(s, e);
    ValuesReadable(s, e, changes, expected, Held(s, s.files, e));
    ChangesTake(before, changes);
    TakesIsUnique(before, changes, ApplyChanges(before, changes).value, next);
    TouchedIff(changes, before, next, key);
  }

  lemma {:induction false} RewritesRecord(s: Session, keys: Keys, edit: Edit, touched: seq<string>, envs: seq<string>)
    requires RewriteAll(s, keys, edit, touched, envs).Ok?
    ensures forall w :: w in RewriteAll(s, keys, edit, touched, envs).value ==> w.keys == touched
    decreases |envs|
  {
    if envs != [] {
      RewritesRecord(s, keys, edit, touched, envs[1..]);
    }
  }

  lemma {:induction false} EncodingsRecord(s: Session, envs: seq<string>, value: Config, keys: Keys, touched: seq<string>)
    requires EncodeAll(s, envs, value, keys, touched).Ok?
    ensures forall w :: w in EncodeAll(s, envs, value, keys, touched).value ==> w.keys == touched && w.path.dir.ConfigDir?
    decreases |envs|
  {
    if envs != [] {
      EncodingsRecord(s, envs[1..], value, keys, touched);
    }
  }

  /** What an operation on one product records against one of its writes. */
  ghost predicate Records(s: Session, op: Operation, path: Path, key: string) {
    match op
    case CreateOp(_, _, _, defaults) =>
      if path.dir.ConfigDir? then exists i :: 0 <= i < |defaults| && defaults[i].key == key else key == s.service
    case WriteOp(e, changes, _) =>
      exists next :: Takes(ConfigOnly(Held(s, s.files, e)), changes, next)
                     && Touched(ConfigOnly(Held(s, s.files, e)), next, changes, key)
    case RetireOp(_, _) => key == "retiring"
    case PromoteOp(from, to, keys) => Carried(Held(s, s.files, from), Held(s, s.files, to), keys, key)
    case AddOp(_, drafts, _) => exists i :: 0 <= i < |drafts| && NameOf(drafts[i]) == key
    case DeleteOp(keys, _) => key in keys
    case ArchiveOp(_, _, _, _) => key == s.service
  }

  /** A selected key that was another value in the target; every selected key if none was. */
  predicate Carried(source: Config, target: Config, keys: seq<string>, key: string) {
    key in keys && (At(source, key) != At(target, key) || forall k :: k in keys ==> At(source, k) == At(target, k))
  }

  /** Every write of an accepted operation records exactly the keys it is about. */
  lemma RecordsAreExact(s: Session, op: Operation, w: Write, key: string)
    requires Ready(s) && Act(s, op).Ok? && w in Act(s, op).value.writes
    ensures key in w.keys <==> Records(s, op, w.path, key)
  {
    match op
    case CreateOp(uid, environments, schema, defaults) => CreationRecords(s, uid, environments, schema, defaults, w, key);
    case WriteOp(e, changes, expected) => WriteRecords(s, e, changes, expected, w, key);
    case RetireOp(retiring, force) =>
    case PromoteOp(from, to, keys) => PromotionRecords(s, from, to, keys, w, key);
    case AddOp(e, drafts, expected) => AdditionRecords(s, e, drafts, expected, w, key);
    case DeleteOp(keys, expected) => DeletionRecords(s, keys, expected, w, key);
    case ArchiveOp(expected, force, at, author) => ArchiveRecords(s, expected, force, at, author, w, key);
  }

  lemma CreationRecords(s: Session, uid: Number, environments: seq<string>, schema: Content, defaults: seq<Field>,
                        w: Write, key: string)
    requires Create(s, uid, environments, schema, defaults).Ok?
    requires w in Create(s, uid, environments, schema, defaults).value.writes
    ensures key in w.keys <==> if w.path.dir.ConfigDir? then exists i :: 0 <= i < |defaults| && defaults[i].key == key
                               else key == s.service
  {
    CreateParts(s, uid, environments, schema, defaults);
    var keys := ParseSchema(s.ctx.host, schema).value.keys;
    EncodingsRecord(s, environments, Versioned(ToConfig(defaults), 1), keys, FieldKeys(defaults));
    if i :| 0 <= i < |defaults| && defaults[i].key == key {
      assert FieldKeys(defaults)[i] == key;
    }
  }

  lemma WriteParts(s: Session, e: string, changes: seq<Change>, expected: Expected)
    requires WriteValues(s, e, changes, expected).Ok?
    ensures s.schema.Some? && Document(s, e).Ok? && ApplyChanges(ConfigOnly(Document(s, e).value), changes).Ok?
    ensures Values(s, e, changes, expected) == Ok(WriteValues(s, e, changes, expected).value.writes)
  {
  }

  lemma WriteRecords(s: Session, e: string, changes: seq<Change>, expected: Expected, w: Write, key: string)
    requires Ready(s) && WriteValues(s, e, changes, expected).Ok? && w in WriteValues(s, e, changes, expected).value.writes
    ensures key in w.keys <==> exists next :: Takes(ConfigOnly(Held(s, s.files, e)), changes, next)
                                              && Touched(ConfigOnly(Held(s, s.files, e)), next, changes, key)
  {
    var before := ConfigOnly(Held(s, s.files, e));
    WriteParts(s, e, changes, expected);
    ReadableIff(s, e);
    ChangesTake(before, changes);
    var next := ApplyChanges(before, changes).value;
    EditIsRecorded(s, e, changes, expected, next, key);
    OneOutcome(before, changes, next, key);
  }

  lemma OneOutcome(before: Config, changes: seq<Change>, next: Config, key: string)
    requires Takes(before, changes, next)
    ensures Touched(before, next, changes, key) <==>
            exists other :: Takes(before, changes, other) && Touched(before, other, changes, key)
  {
    if other :| Takes(before, changes, other) && Touched(before, other, changes, key) {
      TakesIsUnique(before, changes, other, next);
    }
  }

  lemma PromotionRecords(s: Session, from: string, to: string, keys: seq<string>, w: Write, key: string)
    requires Ready(s) && Promote(s, from, to, keys).Ok? && w in Promote(s, from, to, keys).value.writes
    ensures key in w.keys <==> Carried(Held(s, s.files, from), Held(s, s.files, to), keys, key)
  {
    PromoteParts(s, from, to, keys);
    var selected, before := Select(s, keys).value, ConfigOnly(Held(s, s.files, to));
    ReadableIff(s, from);
    ReadableIff(s, to);
    var source := Held(s, s.files, from);
    CopiedApplies(before, selected, source);
    CopiedTakes(before, selected, source);
    EditIsRecorded(s, to, Copied(selected, source), None, before + Picked(selected, source), key);
    CopiesTouch(before, source, selected, keys, key);
    CarriedBeside(source, Held(s, s.files, to), keys, key);
  }

  lemma CarriedBeside(source: Config, held: Config, keys: seq<string>, key: string)
    requires forall k :: k in keys ==> k !in METADATA
    ensures Carried(source, ConfigOnly(held), keys, key) <==> Carried(source, held, keys, key)
  {
    forall k | k in keys ensures At(ConfigOnly(held), k) == At(held, k) {
    }
  }

  lemma CopiesTouch(before: Config, source: Config, selected: seq<string>, keys: seq<string>, key: string)
    requires (forall k :: k in selected <==> k in keys) && forall k :: k in selected ==> k in source
    ensures Touched(before, before + Picked(selected, source), Copied(selected, source), key)
            <==> Carried(source, before, keys, key)
  {
    var changes, after := Copied(selected, source), before + Picked(selected, source);
    forall i | 0 <= i < |changes| ensures changes[i].key in keys && At(after, changes[i].key) == At(source, changes[i].key) {
      assert selected[i] in selected;
    }
    forall k | k in keys ensures exists i :: 0 <= i < |changes| && changes[i].key == k {
      var i :| 0 <= i < |selected| && selected[i] == k;
      assert changes[i].key == k;
    }
  }

  lemma AdditionRecords(s: Session, e: string, drafts: seq<KeyDraft>, expected: Expected, w: Write, key: string)
    requires Ready(s) && AddKeys(s, e, drafts, expected).Ok? && w in AddKeys(s, e, drafts, expected).value.writes
    ensures key in w.keys <==> exists i :: 0 <= i < |drafts| && NameOf(drafts[i]) == key
  {
    AddEffect(s, e, drafts, expected);
    var writes := AddKeys(s, e, drafts, expected).value.writes;
    var n :| 0 <= n < |writes| && writes[n] == w;
    assert Audits(writes[n], drafts);
  }

  lemma DeletionRecords(s: Session, keys: seq<string>, expected: Option<Files>, w: Write, key: string)
    requires DeleteKeys(s, keys, expected).Ok? && w in DeleteKeys(s, keys, expected).value.writes
    ensures key in w.keys <==> key in keys
  {
    var selected, fields := Select(s, keys).value, SchemaFields(s).value;
    var source := Stringify(Map(fields["keys" := Map(DeclaredKeys(fields) - (set k | k in selected))]));
    RewritesRecord(s, ParseSchema(s.ctx.host, source).value.keys, Drop(selected), selected, Listed(s.Environments()));
  }

  lemma ArchiveRecords(s: Session, expected: Option<Files>, force: bool, at: string, author: string, w: Write, key: string)
    requires Archive(s, expected, force, at, author).Ok? && w in Archive(s, expected, force, at, author).value.writes
    ensures key in w.keys <==> key == s.service
  {
    ArchiveParts(s, expected, force, at, author);
  }

  // ---- the order things become visible in ----

  /** Nobody is granted a product before all of it is there: until the last write the registry is as it was. */
  lemma GrantedLast(s: Session, uid: Number, environments: seq<string>, schema: Content, fields: seq<Field>, n: nat)
    requires Create(s, uid, environments, schema, fields).Ok?
    requires n < |Create(s, uid, environments, schema, fields).value.writes|
    ensures Peek(Applied(s.files, Create(s, uid, environments, schema, fields).value.writes[..n]), SERVICES_YAML)
            == Peek(s.files, SERVICES_YAML)
  {
    CreateParts(s, uid, environments, schema, fields);
    var writes := Create(s, uid, environments, schema, fields).value.writes;
    var keys := ParseSchema(s.ctx.host, schema).value.keys;
    EncodingsRecord(s, environments, Versioned(ToConfig(fields), 1), keys, FieldKeys(fields));
    forall i | 0 <= i < n ensures writes[..n][i].path != SERVICES_YAML {
      var values := EncodeAll(s, environments, Versioned(ToConfig(fields), 1), keys, FieldKeys(fields)).value;
      assert i > 0 ==> writes[i] == values[i - 1] && values[i - 1] in values;
    }
    AppliedElsewhere(s.files, writes[..n], SERVICES_YAML);
  }

  /** Nothing of a product goes before its grant is gone and its archive is there. */
  lemma ArchivedFirst(s: Session, expected: Option<Files>, force: bool, at: string, author: string, n: nat, p: Path)
    requires Ready(s) && Archive(s, expected, force, at, author).Ok?
    requires n <= |Archive(s, expected, force, at, author).value.writes| && p in s.files
    requires p !in Applied(s.files, Archive(s, expected, force, at, author).value.writes[..n])
    ensures
      var after := Applied(s.files, Archive(s, expected, force, at, author).value.writes[..n]);
      && Ungranted(after, s.service)
      && exists kept :: IsArchiveOf(s, kept, RequireProduct(s).value, at, author)
                        && Peek(after, ArchivedYaml(s.service)) == Some(Stringify(Map(kept)))
  {
    ArchiveParts(s, expected, force, at, author);
    var writes := Archive(s, expected, force, at, author).value.writes;
    KeptByTwo(s.files, writes, n, p);
    HeadStays(s, writes, n);
    GrantIsGone(s, Applied(s.files, writes[..n]), writes[0]);
    ArchiveKeepsTexts(s, RequireProduct(s).value, at, author);
  }

  lemma HeadStays(s: Session, writes: seq<Write>, n: nat)
    requires 2 < n <= |writes| && writes[0].path == SERVICES_YAML && writes[1].path == ArchivedYaml(s.service)
    requires writes[0].content.Some? && writes[1].content.Some?
    requires writes == [writes[0], writes[1]] + Deletions(s, Listed(s.Environments()))
                       + [Write(SchemaYaml(s.service), None, [s.service])]
    ensures Peek(Applied(s.files, writes[..n]), SERVICES_YAML) == writes[0].content
    ensures Peek(Applied(s.files, writes[..n]), ArchivedYaml(s.service)) == writes[1].content
  {
    var head, rest := writes[..2], writes[2..n];
    assert writes[..n] == head + rest && head == [writes[0], writes[1]];
    AppliedConcat(s.files, head, rest);
    AppliedTwo(s.files, writes[0], writes[1]);
    forall i | 0 <= i < |rest| ensures rest[i].path != SERVICES_YAML && rest[i].path != ArchivedYaml(s.service) {
      var removals := Deletions(s, Listed(s.Environments()));
      assert rest[i] == (removals + [Write(SchemaYaml(s.service), None, [s.service])])[i];
    }
    AppliedElsewhere(Applied(s.files, head), rest, SERVICES_YAML);
    AppliedElsewhere(Applied(s.files, head), rest, ArchivedYaml(s.service));
  }

  lemma KeptByTwo(files: Files, writes: seq<Write>, n: nat, p: Path)
    requires n <= |writes| && |writes| >= 2 && writes[0].content.Some? && writes[1].content.Some?
    requires p in files && p !in Applied(files, writes[..n])
    ensures n > 2
  {
    AppliedTwo(files, writes[0], writes[1]);
    AppliedOne(files, writes[0]);
    assert writes[..0] == [] && writes[..1] == [writes[0]] && writes[..2] == [writes[0], writes[1]];
  }

  lemma AppliedTwo(files: Files, a: Write, b: Write)
    ensures Applied(files, [a, b]) == Storage.Put(Storage.Put(files, a.path, a.content), b.path, b.content)
  {
    assert [a, b][1..] == [b];
    AppliedOne(Storage.Put(files, a.path, a.content), b);
  }
}
