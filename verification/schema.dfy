/** Document metadata, SOPS sealing, and the schemas that values are checked against. */
module Schemas {
  import opened Wrappers
  import opened Documents

  type Config = map<string, Yaml>

  /**
   * What the model takes from its surroundings: which strings parse as http(s) URLs, how `String(…)`
   * spells a value that is not a string, whether there is a `.sops.yaml`, and which keys it seals.
   */
  datatype Host = Host(isHttpUrl: Yaml -> bool, spell: Yaml -> string, sealing: bool, seals: string -> bool)

  predicate IsString(v: Yaml) {
    v.Str? || v.Cipher? || v.Source?
  }

  /** `String(v)`. */
  function AsString(host: Host, v: Yaml): string {
    if v.Str? then v.s else host.spell(v)
  }

  // ---- metadata ----

  const METADATA: set<string> := {"version", "sops"}

  predicate IsSafeInteger(n: Number) {
    n.IsInteger() && -MAX_SAFE_INTEGER <= n.r.Floor <= MAX_SAFE_INTEGER
  }

  /** The document's counter; anything but a whole, non-negative number counts as none. */
  function VersionOf(doc: Config): nat {
    if "version" in doc && doc["version"].Num? && IsSafeInteger(doc["version"].n) && doc["version"].n.r.Floor >= 0
    then doc["version"].n.r.Floor
    else 0
  }

  function Versioned(config: Config, n: int): Config {
    config["version" := Num(Int(n))]
  }

  function ConfigOnly(doc: Config): Config {
    doc - METADATA
  }

  /** The imperative form of `ConfigOnly`, entry by entry. */
  method StripMetadata(doc: Config) returns (out: Config)
    ensures out == ConfigOnly(doc)
  {
    out := map[];
    var rest := doc.Keys;
    while rest != {}
      invariant rest <= doc.Keys
      invariant out == map k | k in doc && k !in rest && k !in METADATA :: doc[k]
    {
      var key :| key in rest;
      if key !in METADATA {
        out := out[key := doc[key]];
      }
      rest := rest - {key};
    }
  }

  /** The counter a document carries, or 0. */
  lemma VersionIs(doc: Config, n: nat)
    ensures n <= MAX_SAFE_INTEGER && "version" in doc && doc["version"] == Num(Int(n)) ==> VersionOf(doc) == n
    ensures (forall k: nat :: k <= MAX_SAFE_INTEGER ==> !("version" in doc && doc["version"] == Num(Int(k)))) ==>
              VersionOf(doc) == 0
  {
    assert (n as real).Floor == n;
    if "version" in doc && doc["version"].Num? && IsSafeInteger(doc["version"].n) && doc["version"].n.r.Floor >= 0 {
      assert doc["version"] == Num(Int(doc["version"].n.r.Floor));
    }
  }

  /** A bumped counter reads back one higher, and the configuration beside it is untouched. */
  lemma VersionRoundTrip(doc: Config, config: Config)
    requires config.Keys !! METADATA && VersionOf(doc) < MAX_SAFE_INTEGER
    ensures VersionOf(Versioned(config, VersionOf(doc) + 1)) == VersionOf(doc) + 1
    ensures ConfigOnly(Versioned(config, VersionOf(doc) + 1)) == config
  {
    var n := VersionOf(doc) + 1;
    assert (n as real).Floor == n;
    assert "version" in METADATA;
  }

  // ---- sealing ----

  /** One value as `sops` stores it under a key it seals: null and the empty string stay as they are. */
  function Seal(v: Yaml, nonce: nat): Yaml {
    if v.Null? || v == Str("") then v
    else if v.List? then List(seq(|v.items|, i requires 0 <= i < |v.items| => Seal(v.items[i], nonce)))
    else Cipher(v, nonce)
  }

  predicate Sealed(v: Yaml) {
    match v
    case Cipher(_, _) => true
    case List(items) => forall i :: 0 <= i < |items| ==> Sealed(items[i])
    case _ => v.Null? || v == Str("")
  }

  function Unseal(v: Yaml): Yaml {
    match v
    case Cipher(plain, _) => plain
    case List(items) => List(seq(|items|, i requires 0 <= i < |items| => Unseal(items[i])))
    case _ => v
  }

  /** What was sealed can be unsealed, and comes back. */
  lemma {:induction false} UnsealSealed(v: Yaml, nonce: nat)
    ensures Sealed(Seal(v, nonce)) && Unseal(Seal(v, nonce)) == v
  {
    if v.List? {
      forall i | 0 <= i < |v.items|
        ensures Sealed(Seal(v.items[i], nonce)) && Unseal(Seal(v.items[i], nonce)) == v.items[i]
      {
        UnsealSealed(v.items[i], nonce);
      }
      assert Unseal(Seal(v, nonce)).items == v.items;
    }
  }

  /** `SopsEncryptor.encrypt`: without a `.sops.yaml` the document is returned as it came. */
  function Encrypt(host: Host, doc: Config, nonce: nat): Config {
    if !host.sealing then doc
    else (map k | k in doc :: if host.seals(k) then Seal(doc[k], nonce) else doc[k])["sops" := Map(map[])]
  }

  /** `SopsDecryptor.decrypt`: a document with no `sops` block is returned untouched. */
  function Decrypt(host: Host, doc: Config): Option<Config> {
    if "sops" !in doc then Some(doc)
    else if forall k :: k in doc && k != "sops" && host.seals(k) ==> Sealed(doc[k]) then
      Some(map k | k in doc && k != "sops" :: if host.seals(k) then Unseal(doc[k]) else doc[k])
    else None
  }

  /** A stored document's own fields, as committed; an empty file has none. */
  function StoredFields(c: Content): Option<Config> {
    if c.Text? && c.tree.Map? then Some(c.tree.fields)
    else if c.Text? && c.tree.Null? then Some(map[])
    else None
  }

  /** `ConfigLoader.resolveOne`: decrypted and parsed, or unreadable. */
  function Resolve(host: Host, c: Content): Option<Config> {
    var fields := StoredFields(c);
    if fields.None? then None else Decrypt(host, fields.value)
  }

  /** A sealed value with a part that was never encrypted; the empty ones never are. */
  predicate InTheClear(v: Yaml) {
    match v
    case Cipher(_, _) => false
    case List(items) => exists i :: 0 <= i < |items| && InTheClear(items[i])
    case _ => v != Null && v != Str("")
  }

  lemma {:induction false} SealedIff(v: Yaml)
    ensures Sealed(v) <==> !InTheClear(v)
  {
    if v.List? {
      forall i | 0 <= i < |v.items| ensures Sealed(v.items[i]) <==> !InTheClear(v.items[i]) {
        SealedIff(v.items[i]);
      }
    }
  }

  /** What a stored file says: nothing if it is empty, its fields as they are unless it has a `sops` block. */
  lemma ResolveIff(host: Host, c: Content)
    ensures c == Stringify(Null) ==> Resolve(host, c) == Some(map[])
    ensures c.Unparsable? || !(c.tree.Map? || c.tree.Null?) ==> Resolve(host, c).None?
    ensures c.Text? && c.tree.Map? && FieldOf(c.tree, "sops").None? ==> Resolve(host, c) == Some(c.tree.fields)
    ensures c.Text? && FieldOf(c.tree, "sops").Some? ==>
              (Resolve(host, c).None? <==>
                 exists k :: k in c.tree.fields && k != "sops" && host.seals(k) && InTheClear(c.tree.fields[k]))
    ensures c.Text? && FieldOf(c.tree, "sops").Some? && Resolve(host, c).Some? ==>
              Resolve(host, c).value.Keys == c.tree.fields.Keys - {"sops"}
              && forall k :: k in Resolve(host, c).value && !host.seals(k) ==> Resolve(host, c).value[k] == c.tree.fields[k]
  {
    if c.Text? && c.tree.Map? {
      forall k | k in c.tree.fields ensures Sealed(c.tree.fields[k]) <==> !InTheClear(c.tree.fields[k]) {
        SealedIff(c.tree.fields[k]);
      }
    }
  }

  /** Decrypting what was encrypted gives it back, under the same keys. */
  lemma ResolveEncrypted(host: Host, doc: Config, nonce: nat)
    requires "sops" !in doc
    ensures Resolve(host, Stringify(Map(Encrypt(host, doc, nonce)))) == Some(doc)
    ensures Encrypt(host, doc, nonce).Keys - {"sops"} == doc.Keys
  {
    if host.sealing {
      var e := Encrypt(host, doc, nonce);
      forall k | k in doc
        ensures host.seals(k) ==> Sealed(e[k]) && Unseal(e[k]) == doc[k]
      {
        UnsealSealed(doc[k], nonce);
      }
      assert (map k | k in e && k != "sops" :: if host.seals(k) then Unseal(e[k]) else e[k]) == doc;
    }
  }

  // ---- key definitions and the values they permit ----

  const KEY_TYPES: set<string> := {"string", "int", "bool", "enum", "url", "string[]"}
  const CIPHER_PREFIX := "ENC[AES256_GCM,"

  datatype KeyDefinition = KeyDefinition(kind: string, fallback: Option<Yaml>, values: Option<seq<string>>,
                                         min: Option<Number>, max: Option<Number>, secret: bool,
                                         description: Option<string>)
  type Keys = map<string, KeyDefinition>
  datatype Schema = Schema(keys: Keys, retiring: bool)

  predicate StartsAsCipher(s: string) {
    |CIPHER_PREFIX| <= |s| && s[..|CIPHER_PREFIX|] == CIPHER_PREFIX
  }

  /** A value SOPS has already encrypted, recognised by its text. */
  predicate IsCiphertext(v: Yaml) {
    v.Cipher? || (v.Str? && StartsAsCipher(v.s))
  }

  predicate AllStrings(items: seq<Yaml>) {
    forall i :: 0 <= i < |items| ==> IsString(items[i])
  }

  /** `checkValue` finds no problem. */
  predicate Permits(host: Host, def: KeyDefinition, v: Yaml) {
    if IsCiphertext(v) then def.secret
    else if v.Null? then false
    else if def.kind == "string" then IsString(v)
    else if def.kind == "bool" then v.Bool?
    else if def.kind == "int" then
      v.Num? && v.n.IsInteger()
      && !(def.min.Some? && v.n.Below(def.min.value)) && !(def.max.Some? && def.max.value.Below(v.n))
    else if def.kind == "enum" then IsString(v) && AsString(host, v) in def.values.GetOr([])
    else if def.kind == "url" then IsString(v) && host.isHttpUrl(v)
    else v.List? && AllStrings(v.items)
  }

  predicate AtLeast(r: real, bound: Option<Number>) {
    match bound
    case Some(Finite(low)) => low <= r
    case Some(Infinity(positive)) => !positive
    case _ => true
  }

  predicate AtMost(r: real, bound: Option<Number>) {
    match bound
    case Some(Finite(high)) => r <= high
    case Some(Infinity(positive)) => positive
    case _ => true
  }

  /** `Below` is a strict order, total but for NaN, and on finite numbers the usual one. */
  lemma BelowIsOrder(a: Number, b: Number, c: Number)
    ensures !a.Below(a) && (a.Below(b) && b.Below(c) ==> a.Below(c))
    ensures a.Below(b) || b.Below(a) || a == b || a.NaN? || b.NaN?
    ensures a.Finite? && b.Finite? ==> (a.Below(b) <==> a.r < b.r)
    ensures b.Finite? ==> Infinity(false).Below(b) && b.Below(Infinity(true))
  {
  }

  /** What a definition accepts, type by type; ciphertext goes under secret keys, whatever their type. */
  lemma PermitsIff(host: Host, def: KeyDefinition, v: Yaml)
    requires def.kind in KEY_TYPES
    ensures v.Cipher? || (v.Str? && CIPHER_PREFIX <= v.s) ==> (Permits(host, def, v) <==> def.secret)
    ensures !v.Cipher? && !(v.Str? && CIPHER_PREFIX <= v.s) ==>
              match def.kind
              case "int" =>
                Permits(host, def, v) <==>
                  exists n: int :: v == Num(Int(n)) && AtLeast(n as real, def.min) && AtMost(n as real, def.max)
              case "bool" => Permits(host, def, v) <==> v == Bool(true) || v == Bool(false)
              case "string" => Permits(host, def, v) <==> v.Str? || v.Source?
              case "enum" =>
                Permits(host, def, v) <==>
                  && def.values.Some?
                  && ((v.Str? && v.s in def.values.value) || (v.Source? && host.spell(v) in def.values.value))
              case "url" => Permits(host, def, v) <==> (v.Str? || v.Source?) && host.isHttpUrl(v)
              case _ =>
                Permits(host, def, v) <==>
                  v.List? && forall i :: 0 <= i < |v.items| ==> v.items[i].Str? || v.items[i].Source? || v.items[i].Cipher?
  {
    if v.Num? && v.n.IsInteger() {
      assert v == Num(Int(v.n.r.Floor));
    }
    if n: int :| v == Num(Int(n)) {
      assert (n as real).Floor == n;
    }
  }

  /** `SchemaSet.validate` finds no error. */
  predicate Accepts(host: Host, keys: Keys, config: Config) {
    forall k :: k in config && k !in METADATA ==> k in keys && Permits(host, keys[k], config[k])
  }

  /** Every faulty key is reported, and nothing else is. */
  method Validate(host: Host, keys: Keys, config: Config) returns (errors: seq<string>)
    ensures forall k :: k in errors <==>
                   k in config && k !in METADATA && (k !in keys || !Permits(host, keys[k], config[k]))
    ensures errors == [] <==> Accepts(host, keys, config)
  {
    errors := [];
    var rest := config.Keys;
    while rest != {}
      invariant rest <= config.Keys
      invariant forall k :: k in errors <==> k in config && k !in rest && k !in METADATA
                                             && (k !in keys || !Permits(host, keys[k], config[k]))
    {
      var key :| key in rest;
      rest := rest - {key};
      if key in METADATA {
        continue;
      }
      if key !in keys || !Permits(host, keys[key], config[key]) {
        errors := errors + [key];
      }
    }
    if errors == [] {
      assert forall k :: k !in errors;
    } else {
      assert errors[0] in errors;
    }
  }

  /** Dropping definitions and values together leaves a valid document valid. */
  lemma AcceptsFewer(host: Host, keys: Keys, config: Config, dropped: set<string>)
    requires Accepts(host, keys, config)
    ensures Accepts(host, keys - dropped, config - dropped)
  {
  }

  /** Values taken from one valid document may be laid over another. */
  lemma AcceptsMerged(host: Host, keys: Keys, a: Config, b: Config)
    requires Accepts(host, keys, a) && Accepts(host, keys, b)
    ensures Accepts(host, keys, a + b)
  {
  }

  // ---- schema files ----

  function NumberAt(raw: Config, key: string): Option<Number> {
    if key in raw && raw[key].Num? then Some(raw[key].n) else None
  }

  function Spelled(host: Host, items: seq<Yaml>): seq<string> {
    seq(|items|, i requires 0 <= i < |items| => AsString(host, items[i]))
  }

  /** What an entry declares besides its default. */
  function BareKey(host: Host, f: Config): KeyDefinition {
    KeyDefinition(if "type" in f && f["type"].Str? then f["type"].s else "", None,
                  if "values" in f && f["values"].List? then Some(Spelled(host, f["values"].items)) else None,
                  NumberAt(f, "min"), NumberAt(f, "max"), "secret" in f && f["secret"] == Bool(true),
                  if "description" in f && f["description"].Str? then Some(f["description"].s) else None)
  }

  /** Some value could satisfy the definition, as far as its own fields show. */
  predicate Satisfiable(def: KeyDefinition) {
    && def.kind in KEY_TYPES
    && (def.kind == "enum" ==> def.values.GetOr([]) != [])
    && !(def.min.Some? && def.max.Some? && def.max.value.Below(def.min.value))
  }

  /** `parseKey`: the definition a raw entry declares, unless the entry could never be met. */
  function ParseKey(host: Host, raw: Yaml): Option<KeyDefinition> {
    if !raw.Map? then None
    else
      var def := BareKey(host, raw.fields);
      if !Satisfiable(def) then None
      else if "default" !in raw.fields then Some(def)
      else if Permits(host, def, raw.fields["default"]) then Some(def.(fallback := Some(raw.fields["default"])))
      else None
  }

  function FieldOf(raw: Yaml, key: string): Option<Yaml> {
    if raw.Map? && key in raw.fields then Some(raw.fields[key]) else None
  }

  /**
   * An entry is read exactly when its type is known, an enum lists values, its bounds leave room and its
   * default is one it permits; what it then says is what its fields say.
   */
  lemma ParsedSays(host: Host, raw: Yaml, def: KeyDefinition)
    requires raw.Map?
    requires FieldOf(raw, "type") == Some(Str(def.kind))
             || (def.kind == "" && !(FieldOf(raw, "type").Some? && FieldOf(raw, "type").value.Str?))
    requires def.min.Some? <==> FieldOf(raw, "min").Some? && FieldOf(raw, "min").value.Num?
    requires def.min.Some? ==> FieldOf(raw, "min") == Some(Num(def.min.value))
    requires def.max.Some? <==> FieldOf(raw, "max").Some? && FieldOf(raw, "max").value.Num?
    requires def.max.Some? ==> FieldOf(raw, "max") == Some(Num(def.max.value))
    requires def.secret <==> FieldOf(raw, "secret") == Some(Bool(true))
    requires def.description.Some? <==> FieldOf(raw, "description").Some? && FieldOf(raw, "description").value.Str?
    requires def.description.Some? ==> FieldOf(raw, "description") == Some(Str(def.description.value))
    requires def.values.Some? <==> FieldOf(raw, "values").Some? && FieldOf(raw, "values").value.List?
    requires def.values.Some? ==>
               && |def.values.value| == |FieldOf(raw, "values").value.items|
               && forall i :: 0 <= i < |def.values.value| ==>
                    var item := FieldOf(raw, "values").value.items[i];
                    def.values.value[i] == if item.Str? then item.s else host.spell(item)
    requires def.fallback == FieldOf(raw, "default")
    ensures ParseKey(host, raw)
            == if def.kind in KEY_TYPES
                  && (def.kind == "enum" ==> def.values.Some? && def.values.value != [])
                  && !(def.min.Some? && def.max.Some? && def.max.value.Below(def.min.value))
                  && (def.fallback.Some? ==> Permits(host, def, def.fallback.value))
               then Some(def) else None
  {
    var bare := BareKey(host, raw.fields);
    assert bare.kind == def.kind && bare.min == def.min && bare.max == def.max && bare.secret == def.secret;
    assert bare.description == def.description;
    assert def.values.Some? ==> bare.values.Some? && bare.values.value == def.values.value;
    assert bare == def.(fallback := None);
    if def.fallback.Some? {
      assert Permits(host, bare, def.fallback.value) == Permits(host, def, def.fallback.value);
    }
  }

  function ParseKeys(host: Host, raw: Config): Option<Keys> {
    if forall k :: k in raw ==> ParseKey(host, raw[k]).Some? then
      Some(map k | k in raw :: ParseKey(host, raw[k]).value)
    else None
  }

  /** The loop of `parseSchema`: it stops at the first entry that cannot be met. */
  lemma AllParsed(host: Host, raw: Config, parsed: Keys)
    requires parsed.Keys == raw.Keys
    requires forall k :: k in parsed ==> ParseKey(host, raw[k]) == Some(parsed[k])
    ensures ParseKeys(host, raw) == Some(parsed)
  {
    assert forall k :: k in raw ==> k in parsed && ParseKey(host, raw[k]) == Some(parsed[k]);
    assert ParseKeys(host, raw).value == parsed;
  }

  method ParseEntries(host: Host, raw: Config) returns (keys: Option<Keys>)
    ensures keys == ParseKeys(host, raw)
  {
    var parsed: Keys := map[];
    var rest := raw.Keys;
    while rest != {}
      invariant rest <= raw.Keys
      invariant parsed.Keys == raw.Keys - rest
      invariant forall k :: k in parsed ==> ParseKey(host, raw[k]) == Some(parsed[k])
    {
      var key :| key in rest;
      var def := ParseKey(host, raw[key]);
      if def.None? {
        return None;
      }
      parsed := parsed[key := def.value];
      rest := rest - {key};
    }
    AllParsed(host, raw, parsed);
    return Some(parsed);
  }

  /** The `keys` mapping of a schema file; a file without one declares none. */
  function RawKeys(tree: Yaml): Option<Config> {
    if !tree.Map? then None
    else if "keys" !in tree.fields then Some(map[])
    else if tree.fields["keys"].Map? then Some(tree.fields["keys"].fields)
    else None
  }

  /** The shape version is required, and is 1. */
  predicate KnownVersion(fields: Config) {
    "version" in fields && fields["version"] == Num(Int(1))
  }

  predicate RetiringReadable(fields: Config) {
    "retiring" in fields ==> fields["retiring"].Bool?
  }

  predicate RetiringOf(fields: Config) {
    "retiring" in fields && fields["retiring"] == Bool(true)
  }

  /** One schema file, or the refusal to read it. */
  function ParseSchema(host: Host, c: Content): Option<Schema> {
    if c.Unparsable? || RawKeys(c.tree).None? then None
    else
      var keys := ParseKeys(host, RawKeys(c.tree).value);
      if keys.None? || !KnownVersion(c.tree.fields) || !RetiringReadable(c.tree.fields) then None
      else Some(Schema(keys.value, RetiringOf(c.tree.fields)))
  }

  /** Whether a file is a schema, and what it then says. */
  lemma SchemaReads(host: Host, c: Content)
    ensures ParseSchema(host, c).Some? <==>
            && c.Text? && c.tree.Map? && FieldOf(c.tree, "version") == Some(Num(Int(1)))
            && (FieldOf(c.tree, "retiring").Some? ==> FieldOf(c.tree, "retiring").value.Bool?)
            && (FieldOf(c.tree, "keys").Some? ==>
                  && FieldOf(c.tree, "keys").value.Map?
                  && forall k :: k in FieldOf(c.tree, "keys").value.fields ==>
                       ParseKey(host, FieldOf(c.tree, "keys").value.fields[k]).Some?)
    ensures ParseSchema(host, c).Some? ==>
              && (ParseSchema(host, c).value.retiring <==> FieldOf(c.tree, "retiring") == Some(Bool(true)))
              && (FieldOf(c.tree, "keys").None? ==> ParseSchema(host, c).value.keys == map[])
              && (FieldOf(c.tree, "keys").Some? ==>
                    && ParseSchema(host, c).value.keys.Keys == FieldOf(c.tree, "keys").value.fields.Keys
                    && forall k :: k in ParseSchema(host, c).value.keys ==>
                         Some(ParseSchema(host, c).value.keys[k]) == ParseKey(host, FieldOf(c.tree, "keys").value.fields[k]))
  {
    assert ParseKeys(host, map[]) == Some(map[]);
  }

  /** A definition a schema file can hold: its own default is a value it permits. */
  predicate Coherent(host: Host, def: KeyDefinition) {
    Satisfiable(def) && (def.fallback.Some? ==> Permits(host, def, def.fallback.value))
  }

  /** Whatever was parsed is coherent. */
  lemma ParsedIsCoherent(host: Host, c: Content, key: string)
    requires ParseSchema(host, c).Some? && key in ParseSchema(host, c).value.keys
    ensures Coherent(host, ParseSchema(host, c).value.keys[key])
  {
    var raw := RawKeys(c.tree).value;
    var def := ParseKey(host, raw[key]).value;
    if def.fallback.Some? {
      assert Permits(host, def.(fallback := None), def.fallback.value);
    }
  }

  function Defaults(keys: Keys): Config {
    map k | k in keys && keys[k].fallback.Some? :: keys[k].fallback.value
  }

  method DefaultsFor(keys: Keys) returns (defaults: Config)
    ensures defaults == Defaults(keys)
    ensures forall k :: k in defaults <==> k in keys && keys[k].fallback.Some?
    ensures forall k :: k in defaults ==> Some(defaults[k]) == keys[k].fallback
  {
    defaults := map[];
    var rest := keys.Keys;
    while rest != {}
      invariant rest <= keys.Keys
      invariant defaults == map k | k in keys && k !in rest && keys[k].fallback.Some? :: keys[k].fallback.value
    {
      var key :| key in rest;
      if keys[key].fallback.Some? {
        defaults := defaults[key := keys[key].fallback.value];
      }
      rest := rest - {key};
    }
  }

  /** A newly created environment file passes the schema it was created from. */
  lemma DefaultsAreAccepted(host: Host, c: Content)
    requires ParseSchema(host, c).Some?
    ensures Accepts(host, ParseSchema(host, c).value.keys, Defaults(ParseSchema(host, c).value.keys))
  {
    var keys := ParseSchema(host, c).value.keys;
    forall k | k in Defaults(keys)
      ensures Permits(host, keys[k], Defaults(keys)[k])
    {
      ParsedIsCoherent(host, c, k);
    }
  }

  /** The product schemas of a snapshot; the global `schema.yaml` is not one. */
  predicate IsSchemaPath(p: Path) {
    p.dir == SchemaDir && p.yaml && p.name != ""
  }

  /** `SchemaSet.fromTree` succeeds. */
  ghost predicate SchemasLoad(host: Host, files: Files) {
    forall p :: p in files && IsSchemaPath(p) ==> ParseSchema(host, files[p]).Some?
  }

  /** One unreadable schema refuses the whole set; otherwise each product has exactly its own. */
  method FromTree(host: Host, files: Files) returns (schemas: Option<map<string, Schema>>)
    ensures schemas.Some? <==> SchemasLoad(host, files)
    ensures schemas.Some? ==> forall s :: s in schemas.value <==> s != "" && SchemaYaml(s) in files
    ensures schemas.Some? ==> forall s :: s in schemas.value ==> Some(schemas.value[s]) == ParseSchema(host, files[SchemaYaml(s)])
  {
    var parsed: map<string, Schema> := map[];
    var rest := files.Keys;
    while rest != {}
      invariant rest <= files.Keys
      invariant forall p :: p in files && p !in rest && IsSchemaPath(p) ==> ParseSchema(host, files[p]).Some?
      invariant forall s :: s in parsed <==> s != "" && SchemaYaml(s) in files && SchemaYaml(s) !in rest
      invariant forall s :: s in parsed ==> Some(parsed[s]) == ParseSchema(host, files[SchemaYaml(s)])
    {
      var path :| path in rest;
      rest := rest - {path};
      if IsSchemaPath(path) {
        assert path == SchemaYaml(path.name);
        var schema := ParseSchema(host, files[path]);
        if schema.None? {
          return None;
        }
        parsed := parsed[path.name := schema.value];
      }
    }
    return Some(parsed);
  }
}
